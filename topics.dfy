/**
 * The thirteen subscription settings of one work topic, each of which may be
 * unset (Java `null`). The same shape describes the attribute values of an
 * `ExternalTaskSubscription` annotation, a snapshot of a
 * `TopicConfigurationProperty` bean, a snapshot of a `TopicConfiguration`
 * record and the settings a subscription builder has received so far.
 */
module Topics {
  import opened Wrappers

  datatype TopicFields = TopicFields(
    topicName: Option<string>,
    lockDuration: Option<int>,
    variables: Option<seq<string>>,
    localVariables: Option<bool>,
    businessKey: Option<string>,
    processDefinitionId: Option<string>,
    processDefinitionIdIn: Option<seq<string>>,
    processDefinitionKey: Option<string>,
    processDefinitionKeyIn: Option<seq<string>>,
    processDefinitionVersionTag: Option<string>,
    withoutTenantId: Option<bool>,
    tenantIdIn: Option<seq<string>>,
    includeExtensionProperties: Option<bool>)

  /** Every setting unset. */
  const Unset := TopicFields(None, None, None, None, None, None, None, None, None, None, None, None, None)

  /** The attribute values of an `ExternalTaskSubscription` annotation; an absent attribute is `None`. */
  type SubscriptionAnnotation = TopicFields

  /** The "non-null wins" rule: the overriding value when there is one, else the own value. */
  function Pick<T>(overriding: Option<T>, own: Option<T>): Option<T> {
    if overriding.Some? then overriding else own
  }

  /** A present array attribute can be indexed at element 0 (`it[0]` throws otherwise). */
  predicate HasElementZero(attribute: Option<seq<string>>) {
    attribute.Some? ==> |attribute.value| > 0
  }

  /** Every array attribute of the annotation that is present can be indexed at element 0. */
  predicate ArraysIndexable(a: SubscriptionAnnotation) {
    HasElementZero(a.variables) && HasElementZero(a.processDefinitionIdIn)
    && HasElementZero(a.processDefinitionKeyIn) && HasElementZero(a.tenantIdIn)
  }

  /**
   * An array attribute is passed on when it is present and its element 0 is not
   * the empty-string sentinel; only element 0 is inspected.
   */
  predicate Forwarded(attribute: Option<seq<string>>)
    requires HasElementZero(attribute)
  {
    attribute.Some? && attribute.value[0] != ""
  }
}
