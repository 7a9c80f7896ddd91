/**
 * `TopicConfigurationMapper`: builds a fresh `TopicConfiguration` either from
 * a property bean or from the attribute values of an `ExternalTaskSubscription`
 * annotation, by successive setter calls; the input is only read.
 */
module TopicConfigurationMappers {
  import opened Wrappers
  import opened Topics
  import opened TopicConfigurations
  import opened TopicConfigurationProperties

  /**
   * The record the property overload produces. localVariables is never set;
   * the two other flags go through primitive-boolean setters, a null read as false.
   */
  function FromProperty(p: TopicFields): (c: TopicFields)
    ensures c.localVariables == None
    ensures c.withoutTenantId == Some(p.withoutTenantId == Some(true))
    ensures c.includeExtensionProperties == Some(p.includeExtensionProperties == Some(true))
    // every other field is copied verbatim, null and sentinel arrays included
    ensures c.(localVariables := p.localVariables, withoutTenantId := p.withoutTenantId,
               includeExtensionProperties := p.includeExtensionProperties) == p
  {
    // the primitive-boolean setters receive the flag with null read as false
    var withoutTenantId := p.withoutTenantId.GetOr(false);
    var includeExtensionProperties := p.includeExtensionProperties.GetOr(false);
    assert withoutTenantId == (p.withoutTenantId == Some(true));
    assert includeExtensionProperties == (p.includeExtensionProperties == Some(true));
    TopicFields(
      p.topicName, p.lockDuration, p.variables, None, p.businessKey,
      p.processDefinitionId, p.processDefinitionIdIn, p.processDefinitionKey,
      p.processDefinitionKeyIn, p.processDefinitionVersionTag,
      Some(withoutTenantId), p.tenantIdIn, Some(includeExtensionProperties))
  }

  /** An array attribute as the annotation overload records it: dropped when element 0 is the sentinel. */
  function DeclaredArray(attribute: Option<seq<string>>): Option<seq<string>>
    requires HasElementZero(attribute)
  {
    if Forwarded(attribute) then attribute else None
  }

  /** A boolean attribute recorded only when it is true (the annotation's withoutTenantId). */
  function DeclaredTrue(attribute: Option<bool>): Option<bool> {
    if attribute == Some(true) then Some(true) else None
  }

  /**
   * The record the annotation overload produces: present scalars are copied and
   * absent ones stay null; an array is recorded only when its element 0 is not
   * the sentinel `""`; withoutTenantId is recorded only when true.
   */
  function FromAnnotation(a: SubscriptionAnnotation): (c: TopicFields)
    requires ArraysIndexable(a)
    ensures c.variables.Some? <==> Forwarded(a.variables)
    ensures c.processDefinitionIdIn.Some? <==> Forwarded(a.processDefinitionIdIn)
    ensures c.processDefinitionKeyIn.Some? <==> Forwarded(a.processDefinitionKeyIn)
    ensures c.tenantIdIn.Some? <==> Forwarded(a.tenantIdIn)
    // a recorded array is the declared one, whole
    ensures c.variables.Some? ==> c.variables == a.variables
    ensures c.processDefinitionIdIn.Some? ==> c.processDefinitionIdIn == a.processDefinitionIdIn
    ensures c.processDefinitionKeyIn.Some? ==> c.processDefinitionKeyIn == a.processDefinitionKeyIn
    ensures c.tenantIdIn.Some? ==> c.tenantIdIn == a.tenantIdIn
    // withoutTenantId is either unset or true, and true exactly when declared true
    ensures c.withoutTenantId != Some(false)
    ensures c.withoutTenantId.Some? <==> a.withoutTenantId == Some(true)
    // the scalars, localVariables and includeExtensionProperties included, are copied as they are
    ensures c.(variables := a.variables, processDefinitionIdIn := a.processDefinitionIdIn,
               processDefinitionKeyIn := a.processDefinitionKeyIn, tenantIdIn := a.tenantIdIn,
               withoutTenantId := a.withoutTenantId) == a
  {
    a.(variables := DeclaredArray(a.variables),
       processDefinitionIdIn := DeclaredArray(a.processDefinitionIdIn),
       processDefinitionKeyIn := DeclaredArray(a.processDefinitionKeyIn),
       withoutTenantId := DeclaredTrue(a.withoutTenantId),
       tenantIdIn := DeclaredArray(a.tenantIdIn))
  }

  /** `mapToTopicConfiguration(TopicConfigurationProperty)`. */
  method MapPropertyToTopicConfiguration(property: TopicConfigurationProperty) returns (c: TopicConfiguration)
    ensures fresh(c)
    ensures c.Value() == FromProperty(property.Value())
  {
    c := new TopicConfiguration();
    c.SetTopicName(property.topicName);
    c.SetLockDuration(property.lockDuration);
    c.SetVariables(property.variables);
    c.SetBusinessKey(property.businessKey);
    c.SetProcessDefinitionId(property.processDefinitionId);
    c.SetProcessDefinitionIdIn(property.processDefinitionIdIn);
    c.SetProcessDefinitionKey(property.processDefinitionKey);
    c.SetProcessDefinitionKeyIn(property.processDefinitionKeyIn);
    c.SetProcessDefinitionVersionTag(property.processDefinitionVersionTag);
    c.SetWithoutTenantId(property.withoutTenantId.GetOr(false));
    c.SetTenantIdIn(property.tenantIdIn);
    c.SetIncludeExtensionProperties(property.includeExtensionProperties.GetOr(false));
  }

  /** `mapToTopicConfiguration(AnnotationValue<ExternalTaskSubscription>)`. */
  method MapAnnotationToTopicConfiguration(a: SubscriptionAnnotation) returns (c: TopicConfiguration)
    requires ArraysIndexable(a)
    ensures fresh(c)
    ensures c.Value() == FromAnnotation(a)
  {
    c := new TopicConfiguration();
    RecordAnnotationHead(a, c);
    RecordAnnotationFilters(a, c);
    RecordAnnotationTail(a, c);
  }

  /**
   * The `ifPresent` calls of the annotation overload from topicName to localVariables: a present
   * attribute that passes its check is set, anything else leaves the field as it was.
   */
  method RecordAnnotationHead(a: SubscriptionAnnotation, c: TopicConfiguration)
    requires ArraysIndexable(a)
    modifies c
    ensures c.Value() == old(c.Value()).(
      topicName := Pick(a.topicName, old(c.topicName)),
      lockDuration := Pick(a.lockDuration, old(c.lockDuration)),
      variables := Pick(DeclaredArray(a.variables), old(c.variables)),
      localVariables := Pick(a.localVariables, old(c.localVariables)))
  {
    if a.topicName.Some? {
      c.SetTopicName(a.topicName);
    }
    if a.lockDuration.Some? {
      c.SetLockDuration(a.lockDuration);
    }
    if a.variables.Some? {
      if a.variables.value[0] != "" {
        c.SetVariables(a.variables);
      }
    }
    if a.localVariables.Some? {
      c.SetLocalVariables(a.localVariables.value);
    }
  }

  /**
   * The `ifPresent` calls of the annotation overload from businessKey to processDefinitionKeyIn: a present
   * attribute that passes its check is set, anything else leaves the field as it was.
   */
  method RecordAnnotationFilters(a: SubscriptionAnnotation, c: TopicConfiguration)
    requires ArraysIndexable(a)
    modifies c
    ensures c.Value() == old(c.Value()).(
      businessKey := Pick(a.businessKey, old(c.businessKey)),
      processDefinitionId := Pick(a.processDefinitionId, old(c.processDefinitionId)),
      processDefinitionIdIn := Pick(DeclaredArray(a.processDefinitionIdIn), old(c.processDefinitionIdIn)),
      processDefinitionKey := Pick(a.processDefinitionKey, old(c.processDefinitionKey)),
      processDefinitionKeyIn := Pick(DeclaredArray(a.processDefinitionKeyIn), old(c.processDefinitionKeyIn)))
  {
    if a.businessKey.Some? {
      c.SetBusinessKey(a.businessKey);
    }
    if a.processDefinitionId.Some? {
      c.SetProcessDefinitionId(a.processDefinitionId);
    }
    if a.processDefinitionIdIn.Some? {
      if a.processDefinitionIdIn.value[0] != "" {
        c.SetProcessDefinitionIdIn(a.processDefinitionIdIn);
      }
    }
    if a.processDefinitionKey.Some? {
      c.SetProcessDefinitionKey(a.processDefinitionKey);
    }
    if a.processDefinitionKeyIn.Some? {
      if a.processDefinitionKeyIn.value[0] != "" {
        c.SetProcessDefinitionKeyIn(a.processDefinitionKeyIn);
      }
    }
  }

  /**
   * The `ifPresent` calls of the annotation overload from processDefinitionVersionTag to includeExtensionProperties: a present
   * attribute that passes its check is set, anything else leaves the field as it was.
   */
  method RecordAnnotationTail(a: SubscriptionAnnotation, c: TopicConfiguration)
    requires ArraysIndexable(a)
    modifies c
    ensures c.Value() == old(c.Value()).(
      processDefinitionVersionTag := Pick(a.processDefinitionVersionTag, old(c.processDefinitionVersionTag)),
      withoutTenantId := Pick(DeclaredTrue(a.withoutTenantId), old(c.withoutTenantId)),
      tenantIdIn := Pick(DeclaredArray(a.tenantIdIn), old(c.tenantIdIn)),
      includeExtensionProperties := Pick(a.includeExtensionProperties, old(c.includeExtensionProperties)))
  {
    if a.processDefinitionVersionTag.Some? {
      c.SetProcessDefinitionVersionTag(a.processDefinitionVersionTag);
    }
    if a.withoutTenantId.Some? {
      if a.withoutTenantId.value {
        c.SetWithoutTenantId(true);
      }
    }
    if a.tenantIdIn.Some? {
      if a.tenantIdIn.value[0] != "" {
        c.SetTenantIdIn(a.tenantIdIn);
      }
    }
    if a.includeExtensionProperties.Some? {
      c.SetIncludeExtensionProperties(a.includeExtensionProperties.value);
    }
  }
}
