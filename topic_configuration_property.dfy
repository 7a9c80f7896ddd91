/**
 * `TopicConfigurationProperty`: the externally configured override for one
 * topic, a mutable bean whose every field may be null. Its getters are plain
 * field reads (here: field access), the Boolean ones included, so a null flag
 * is read as null and never as false.
 */
module TopicConfigurationProperties {
  import opened Wrappers
  import opened Topics

  class TopicConfigurationProperty {
    var topicName: Option<string>
    var lockDuration: Option<int>
    var variables: Option<seq<string>>
    var localVariables: Option<bool>
    var businessKey: Option<string>
    var processDefinitionId: Option<string>
    var processDefinitionIdIn: Option<seq<string>>
    var processDefinitionKey: Option<string>
    var processDefinitionKeyIn: Option<seq<string>>
    var processDefinitionVersionTag: Option<string>
    var withoutTenantId: Option<bool>
    var tenantIdIn: Option<seq<string>>
    var includeExtensionProperties: Option<bool>

    /** All thirteen fields, as the getters return them. */
    function Value(): TopicFields
      reads this
    {
      TopicFields(topicName, lockDuration, variables, localVariables, businessKey,
                  processDefinitionId, processDefinitionIdIn, processDefinitionKey,
                  processDefinitionKeyIn, processDefinitionVersionTag, withoutTenantId,
                  tenantIdIn, includeExtensionProperties)
    }

    /** Stores the topic name the bean was bound under; every other field stays null. */
    constructor (topicName: Option<string>)
      ensures Value() == Unset.(topicName := topicName)
    {
      this.topicName := topicName;
      lockDuration := None;
      variables := None;
      localVariables := None;
      businessKey := None;
      processDefinitionId := None;
      processDefinitionIdIn := None;
      processDefinitionKey := None;
      processDefinitionKeyIn := None;
      processDefinitionVersionTag := None;
      withoutTenantId := None;
      tenantIdIn := None;
      includeExtensionProperties := None;
    }

    method SetTopicName(v: Option<string>)
      modifies this`topicName
      ensures topicName == v
    {
      topicName := v;
    }

    method SetLockDuration(v: Option<int>)
      modifies this`lockDuration
      ensures lockDuration == v
    {
      lockDuration := v;
    }

    method SetVariables(v: Option<seq<string>>)
      modifies this`variables
      ensures variables == v
    {
      variables := v;
    }

    method SetLocalVariables(v: Option<bool>)
      modifies this`localVariables
      ensures localVariables == v
    {
      localVariables := v;
    }

    method SetBusinessKey(v: Option<string>)
      modifies this`businessKey
      ensures businessKey == v
    {
      businessKey := v;
    }

    method SetProcessDefinitionId(v: Option<string>)
      modifies this`processDefinitionId
      ensures processDefinitionId == v
    {
      processDefinitionId := v;
    }

    method SetProcessDefinitionIdIn(v: Option<seq<string>>)
      modifies this`processDefinitionIdIn
      ensures processDefinitionIdIn == v
    {
      processDefinitionIdIn := v;
    }

    method SetProcessDefinitionKey(v: Option<string>)
      modifies this`processDefinitionKey
      ensures processDefinitionKey == v
    {
      processDefinitionKey := v;
    }

    method SetProcessDefinitionKeyIn(v: Option<seq<string>>)
      modifies this`processDefinitionKeyIn
      ensures processDefinitionKeyIn == v
    {
      processDefinitionKeyIn := v;
    }

    method SetProcessDefinitionVersionTag(v: Option<string>)
      modifies this`processDefinitionVersionTag
      ensures processDefinitionVersionTag == v
    {
      processDefinitionVersionTag := v;
    }

    method SetWithoutTenantId(v: Option<bool>)
      modifies this`withoutTenantId
      ensures withoutTenantId == v
    {
      withoutTenantId := v;
    }

    method SetTenantIdIn(v: Option<seq<string>>)
      modifies this`tenantIdIn
      ensures tenantIdIn == v
    {
      tenantIdIn := v;
    }

    method SetIncludeExtensionProperties(v: Option<bool>)
      modifies this`includeExtensionProperties
      ensures includeExtensionProperties == v
    {
      includeExtensionProperties := v;
    }
  }
}
