/**
 * `ExternalWorkerSubscriptionCreator`: the builder path run at startup. Every
 * handler definition is visited in order; an annotated one gets a
 * subscription whose builder first receives the annotation's values, then,
 * when a property bean is bound under the same topic name, that bean's
 * non-null values, and is finally opened.
 *
 * The Camunda client is modelled as a recorder: `ExternalTaskClient.calls`
 * is the trace of every builder call issued, in order, and `Replay` gives the
 * settings a trace leaves behind under "the last setter call wins".
 */
module ExternalWorkerSubscriptions {
  import opened Wrappers
  import opened Topics
  import opened TopicConfigurations
  import opened TopicConfigurationMappers
  import opened TopicConfigurationProperties

  /** The handler bean: an opaque token that the builder only passes on. */
  datatype ExternalTaskHandler = ExternalTaskHandler(id: nat)

  /** A bean definition of an `ExternalTaskHandler`, with its annotation if it carries one. */
  datatype HandlerDefinition = HandlerDefinition(
    name: string,
    handler: ExternalTaskHandler,
    annotation: Option<SubscriptionAnnotation>)

  /** One call on the subscription API: `subscribe`, a builder setter, or `open`. */
  datatype Call =
    | Subscribe(topicName: string)
    | Handler(handler: ExternalTaskHandler)
    | LockDuration(lockDuration: int)
    | Variables(variables: seq<string>)
    | LocalVariables(localVariables: bool)
    | BusinessKey(businessKey: string)
    | ProcessDefinitionId(processDefinitionId: string)
    | ProcessDefinitionIdIn(processDefinitionIdIn: seq<string>)
    | ProcessDefinitionKey(processDefinitionKey: string)
    | ProcessDefinitionKeyIn(processDefinitionKeyIn: seq<string>)
    | ProcessDefinitionVersionTag(processDefinitionVersionTag: string)
    | WithoutTenantId
    | TenantIdIn(tenantIdIn: seq<string>)
    | IncludeExtensionProperties(includeExtensionProperties: bool)
    | Open
  {
    /** A call that sets one filter or fetch setting of the subscription being built. */
    predicate IsSetter() {
      !Subscribe? && !Handler? && !Open?
    }
  }

  /** The setting one call leaves on the builder; `withoutTenantId()` takes no argument and means true. */
  function Apply(s: TopicFields, c: Call): TopicFields {
    match c
    case Subscribe(t) => s.(topicName := Some(t))
    case Handler(_) => s
    case LockDuration(v) => s.(lockDuration := Some(v))
    case Variables(v) => s.(variables := Some(v))
    case LocalVariables(b) => s.(localVariables := Some(b))
    case BusinessKey(v) => s.(businessKey := Some(v))
    case ProcessDefinitionId(v) => s.(processDefinitionId := Some(v))
    case ProcessDefinitionIdIn(v) => s.(processDefinitionIdIn := Some(v))
    case ProcessDefinitionKey(v) => s.(processDefinitionKey := Some(v))
    case ProcessDefinitionKeyIn(v) => s.(processDefinitionKeyIn := Some(v))
    case ProcessDefinitionVersionTag(v) => s.(processDefinitionVersionTag := Some(v))
    case WithoutTenantId => s.(withoutTenantId := Some(true))
    case TenantIdIn(v) => s.(tenantIdIn := Some(v))
    case IncludeExtensionProperties(b) => s.(includeExtensionProperties := Some(b))
    case Open => s
  }

  /** The settings after the calls of `calls`, in order, starting from `s`. */
  function Replay(s: TopicFields, calls: seq<Call>): TopicFields
    decreases |calls|
  {
    if calls == [] then s else Apply(Replay(s, calls[..|calls| - 1]), calls[|calls| - 1])
  }

  /** Replaying two traces one after the other is replaying their concatenation. */
  lemma {:induction false} ReplayAppend(s: TopicFields, first: seq<Call>, second: seq<Call>)
    ensures Replay(s, first + second) == Replay(Replay(s, first), second)
    decreases |second|
  {
    if second == [] {
      assert first + second == first;
    } else {
      var last := |second| - 1;
      assert (first + second)[..|first + second| - 1] == first + second[..last];
      ReplayAppend(s, first, second[..last]);
    }
  }

  /** The calls of a statement that issues `c` when `condition` holds: that one call, or none. */
  function When(condition: bool, c: Call): (calls: seq<Call>)
    ensures forall issued <- calls :: issued == c
  {
    if condition then [c] else []
  }

  /** Replaying a conditional statement's calls applies its call exactly when the condition holds. */
  lemma ReplayWhen(s: TopicFields, condition: bool, c: Call)
    ensures Replay(s, When(condition, c)) == if condition then Apply(s, c) else s
  {
    if condition {
      assert [c][..0] == [];
    }
  }

  /** Replaying three traces one after the other. */
  lemma ReplayThree(s: TopicFields, first: seq<Call>, second: seq<Call>, third: seq<Call>)
    ensures Replay(s, first + second + third) == Replay(Replay(Replay(s, first), second), third)
  {
    ReplayAppend(s, first + second, third);
    ReplayAppend(s, first, second);
  }

  /*
   * The calls `buildTopicSubscription` issues after `handler(...)`, in source
   * order, in four groups: a present scalar is forwarded as it is, false
   * included; an array only when its element 0 is not ""; withoutTenantId()
   * only when the attribute is true.
   */

  /** The statements for lockDuration, variables and localVariables. */
  function AnnotationFetchCalls(a: SubscriptionAnnotation): (calls: seq<Call>)
    requires ArraysIndexable(a)
    ensures forall c <- calls :: c.IsSetter()
  {
    When(a.lockDuration.Some?, LockDuration(a.lockDuration.GetOr(0)))
    + When(Forwarded(a.variables), Variables(a.variables.GetOr([])))
    + When(a.localVariables.Some?, LocalVariables(a.localVariables.GetOr(false)))
  }

  /** The statements for businessKey, processDefinitionId and processDefinitionIdIn. */
  function AnnotationInstanceCalls(a: SubscriptionAnnotation): (calls: seq<Call>)
    requires ArraysIndexable(a)
    ensures forall c <- calls :: c.IsSetter()
  {
    When(a.businessKey.Some?, BusinessKey(a.businessKey.GetOr("")))
    + When(a.processDefinitionId.Some?, ProcessDefinitionId(a.processDefinitionId.GetOr("")))
    + When(Forwarded(a.processDefinitionIdIn), ProcessDefinitionIdIn(a.processDefinitionIdIn.GetOr([])))
  }

  /** The statements for processDefinitionKey, processDefinitionKeyIn and processDefinitionVersionTag. */
  function AnnotationDefinitionCalls(a: SubscriptionAnnotation): (calls: seq<Call>)
    requires ArraysIndexable(a)
    ensures forall c <- calls :: c.IsSetter()
  {
    When(a.processDefinitionKey.Some?, ProcessDefinitionKey(a.processDefinitionKey.GetOr("")))
    + When(Forwarded(a.processDefinitionKeyIn), ProcessDefinitionKeyIn(a.processDefinitionKeyIn.GetOr([])))
    + When(a.processDefinitionVersionTag.Some?, ProcessDefinitionVersionTag(a.processDefinitionVersionTag.GetOr("")))
  }

  /** The statements for withoutTenantId, tenantIdIn and includeExtensionProperties. */
  function AnnotationTenantCalls(a: SubscriptionAnnotation): (calls: seq<Call>)
    requires ArraysIndexable(a)
    ensures forall c <- calls :: c.IsSetter()
  {
    When(a.withoutTenantId == Some(true), WithoutTenantId)
    + When(Forwarded(a.tenantIdIn), TenantIdIn(a.tenantIdIn.GetOr([])))
    + When(a.includeExtensionProperties.Some?, IncludeExtensionProperties(a.includeExtensionProperties.GetOr(false)))
  }

  /** The setter calls `buildTopicSubscription` issues after `handler(...)`. */
  function AnnotationCalls(a: SubscriptionAnnotation): (calls: seq<Call>)
    requires ArraysIndexable(a)
    ensures forall c <- calls :: c.IsSetter()
  {
    AnnotationFetchCalls(a) + AnnotationInstanceCalls(a) + AnnotationDefinitionCalls(a) + AnnotationTenantCalls(a)
  }

  /*
   * The calls `overrideAnnotationWithConfigurationProperties` issues for a
   * property bean, in source order, in four groups: one per non-null field
   * (topicName excepted), arrays with no sentinel check, variables twice, and
   * the flags withoutTenantId and includeExtensionProperties only when true.
   */

  /** The statements for lockDuration, variables (twice, as written) and localVariables. */
  function PropertyFetchCalls(p: TopicFields): (calls: seq<Call>)
    ensures forall c <- calls :: c.IsSetter()
  {
    When(p.lockDuration.Some?, LockDuration(p.lockDuration.GetOr(0)))
    + When(p.variables.Some?, Variables(p.variables.GetOr([])))
    + When(p.variables.Some?, Variables(p.variables.GetOr([])))
    + When(p.localVariables.Some?, LocalVariables(p.localVariables.GetOr(false)))
  }

  /** The statements for businessKey, processDefinitionId and processDefinitionIdIn. */
  function PropertyInstanceCalls(p: TopicFields): (calls: seq<Call>)
    ensures forall c <- calls :: c.IsSetter()
  {
    When(p.businessKey.Some?, BusinessKey(p.businessKey.GetOr("")))
    + When(p.processDefinitionId.Some?, ProcessDefinitionId(p.processDefinitionId.GetOr("")))
    + When(p.processDefinitionIdIn.Some?, ProcessDefinitionIdIn(p.processDefinitionIdIn.GetOr([])))
  }

  /** The statements for processDefinitionKey, processDefinitionKeyIn and processDefinitionVersionTag. */
  function PropertyDefinitionCalls(p: TopicFields): (calls: seq<Call>)
    ensures forall c <- calls :: c.IsSetter()
  {
    When(p.processDefinitionKey.Some?, ProcessDefinitionKey(p.processDefinitionKey.GetOr("")))
    + When(p.processDefinitionKeyIn.Some?, ProcessDefinitionKeyIn(p.processDefinitionKeyIn.GetOr([])))
    + When(p.processDefinitionVersionTag.Some?, ProcessDefinitionVersionTag(p.processDefinitionVersionTag.GetOr("")))
  }

  /** The statements for withoutTenantId, tenantIdIn and includeExtensionProperties. */
  function PropertyTenantCalls(p: TopicFields): (calls: seq<Call>)
    ensures forall c <- calls :: c.IsSetter()
  {
    When(p.withoutTenantId == Some(true), WithoutTenantId)
    + When(p.tenantIdIn.Some?, TenantIdIn(p.tenantIdIn.GetOr([])))
    + When(p.includeExtensionProperties == Some(true), IncludeExtensionProperties(true))
  }

  /** The calls `overrideAnnotationWithConfigurationProperties` issues for a property bean. */
  function PropertyCalls(p: TopicFields): (calls: seq<Call>)
    ensures forall c <- calls :: c.IsSetter()
  {
    PropertyFetchCalls(p) + PropertyInstanceCalls(p) + PropertyDefinitionCalls(p) + PropertyTenantCalls(p)
  }

  /** An annotated definition can be registered: its topicName is present and its arrays can be indexed. */
  predicate Registrable(d: HandlerDefinition) {
    d.annotation.Some? ==> d.annotation.value.topicName.Some? && ArraysIndexable(d.annotation.value)
  }

  /** The whole trace `registerExternalTaskHandler` issues for one definition; none without an annotation. */
  function HandlerCalls(d: HandlerDefinition, properties: map<string, TopicFields>): seq<Call>
    requires Registrable(d)
  {
    match d.annotation
    case None => []
    case Some(a) =>
      var topicName := a.topicName.value;
      [Subscribe(topicName), Handler(d.handler)] + AnnotationCalls(a)
      + (if topicName in properties then PropertyCalls(properties[topicName]) else [])
      + [Open]
  }

  /** The trace of the constructor's pass over `definitions`, in order. */
  function RegistrationCalls(definitions: seq<HandlerDefinition>, properties: map<string, TopicFields>): seq<Call>
    requires forall d <- definitions :: Registrable(d)
    decreases |definitions|
  {
    if definitions == [] then []
    else
      var last := |definitions| - 1;
      RegistrationCalls(definitions[..last], properties) + HandlerCalls(definitions[last], properties)
  }

  /** The names of the definitions skipped with a warning: those without an annotation, in order. */
  function Warnings(definitions: seq<HandlerDefinition>): seq<string>
    decreases |definitions|
  {
    if definitions == [] then []
    else
      var last := |definitions| - 1;
      Warnings(definitions[..last]) + (if definitions[last].annotation.None? then [definitions[last].name] else [])
  }

  /** The current values of the property beans, keyed by the name they are bound under. */
  function PropertyValues(properties: map<string, TopicConfigurationProperty>): map<string, TopicFields>
    reads properties.Values
  {
    map t | t in properties :: properties[t].Value()
  }

  /**
   * The builder path's overlay, stated field by field: a non-null property
   * value replaces the annotation's, localVariables false included; the flags
   * withoutTenantId and includeExtensionProperties can only be raised to true;
   * the property's topicName is never applied.
   */
  function Overlay(s: TopicFields, p: TopicFields): (r: TopicFields)
    ensures r.topicName == s.topicName
    // a non-null property value wins; a null one keeps the annotation's value
    ensures p.lockDuration.Some? ==> r.lockDuration == p.lockDuration
    ensures p.lockDuration.None? ==> r.lockDuration == s.lockDuration
    ensures p.variables.Some? ==> r.variables == p.variables
    ensures p.variables.None? ==> r.variables == s.variables
    ensures p.localVariables.Some? ==> r.localVariables == p.localVariables
    ensures p.localVariables.None? ==> r.localVariables == s.localVariables
    ensures p.businessKey.Some? ==> r.businessKey == p.businessKey
    ensures p.businessKey.None? ==> r.businessKey == s.businessKey
    ensures p.processDefinitionId.Some? ==> r.processDefinitionId == p.processDefinitionId
    ensures p.processDefinitionId.None? ==> r.processDefinitionId == s.processDefinitionId
    ensures p.processDefinitionIdIn.Some? ==> r.processDefinitionIdIn == p.processDefinitionIdIn
    ensures p.processDefinitionIdIn.None? ==> r.processDefinitionIdIn == s.processDefinitionIdIn
    ensures p.processDefinitionKey.Some? ==> r.processDefinitionKey == p.processDefinitionKey
    ensures p.processDefinitionKey.None? ==> r.processDefinitionKey == s.processDefinitionKey
    ensures p.processDefinitionKeyIn.Some? ==> r.processDefinitionKeyIn == p.processDefinitionKeyIn
    ensures p.processDefinitionKeyIn.None? ==> r.processDefinitionKeyIn == s.processDefinitionKeyIn
    ensures p.processDefinitionVersionTag.Some? ==> r.processDefinitionVersionTag == p.processDefinitionVersionTag
    ensures p.processDefinitionVersionTag.None? ==> r.processDefinitionVersionTag == s.processDefinitionVersionTag
    ensures p.tenantIdIn.Some? ==> r.tenantIdIn == p.tenantIdIn
    ensures p.tenantIdIn.None? ==> r.tenantIdIn == s.tenantIdIn
    // a flag is raised by a property value of true, and otherwise left as it was
    ensures p.withoutTenantId == Some(true) ==> r.withoutTenantId == Some(true)
    ensures p.includeExtensionProperties == Some(true) ==> r.includeExtensionProperties == Some(true)
    ensures p.withoutTenantId != Some(true) ==> r.withoutTenantId == s.withoutTenantId
    ensures p.includeExtensionProperties != Some(true) ==> r.includeExtensionProperties == s.includeExtensionProperties
    ensures s.withoutTenantId == Some(true) ==> r.withoutTenantId == Some(true)
    ensures s.includeExtensionProperties == Some(true) ==> r.includeExtensionProperties == Some(true)
  {
    TopicFields(
      s.topicName,
      Pick(p.lockDuration, s.lockDuration),
      Pick(p.variables, s.variables),
      Pick(p.localVariables, s.localVariables),
      Pick(p.businessKey, s.businessKey),
      Pick(p.processDefinitionId, s.processDefinitionId),
      Pick(p.processDefinitionIdIn, s.processDefinitionIdIn),
      Pick(p.processDefinitionKey, s.processDefinitionKey),
      Pick(p.processDefinitionKeyIn, s.processDefinitionKeyIn),
      Pick(p.processDefinitionVersionTag, s.processDefinitionVersionTag),
      if p.withoutTenantId == Some(true) then Some(true) else s.withoutTenantId,
      Pick(p.tenantIdIn, s.tenantIdIn),
      if p.includeExtensionProperties == Some(true) then Some(true) else s.includeExtensionProperties)
  }

  /** The annotation's fetch group replaces lockDuration, variables (when forwarded) and localVariables. */
  lemma ReplayAnnotationFetchCalls(s: TopicFields, a: SubscriptionAnnotation)
    requires ArraysIndexable(a)
    ensures Replay(s, AnnotationFetchCalls(a)) ==
            s.(lockDuration := Pick(a.lockDuration, s.lockDuration),
               variables := Pick(DeclaredArray(a.variables), s.variables),
               localVariables := Pick(a.localVariables, s.localVariables))
  {
    var lock := When(a.lockDuration.Some?, LockDuration(a.lockDuration.GetOr(0)));
    var variables := When(Forwarded(a.variables), Variables(a.variables.GetOr([])));
    var local := When(a.localVariables.Some?, LocalVariables(a.localVariables.GetOr(false)));
    ReplayThree(s, lock, variables, local);
    ReplayWhen(s, a.lockDuration.Some?, LockDuration(a.lockDuration.GetOr(0)));
    ReplayWhen(Replay(s, lock), Forwarded(a.variables), Variables(a.variables.GetOr([])));
    ReplayWhen(Replay(Replay(s, lock), variables), a.localVariables.Some?, LocalVariables(a.localVariables.GetOr(false)));
  }

  /** The annotation's instance group replaces businessKey, processDefinitionId and processDefinitionIdIn (when forwarded). */
  lemma ReplayAnnotationInstanceCalls(s: TopicFields, a: SubscriptionAnnotation)
    requires ArraysIndexable(a)
    ensures Replay(s, AnnotationInstanceCalls(a)) ==
            s.(businessKey := Pick(a.businessKey, s.businessKey),
               processDefinitionId := Pick(a.processDefinitionId, s.processDefinitionId),
               processDefinitionIdIn := Pick(DeclaredArray(a.processDefinitionIdIn), s.processDefinitionIdIn))
  {
    var key := When(a.businessKey.Some?, BusinessKey(a.businessKey.GetOr("")));
    var id := When(a.processDefinitionId.Some?, ProcessDefinitionId(a.processDefinitionId.GetOr("")));
    var ids := When(Forwarded(a.processDefinitionIdIn), ProcessDefinitionIdIn(a.processDefinitionIdIn.GetOr([])));
    ReplayThree(s, key, id, ids);
    ReplayWhen(s, a.businessKey.Some?, BusinessKey(a.businessKey.GetOr("")));
    ReplayWhen(Replay(s, key), a.processDefinitionId.Some?, ProcessDefinitionId(a.processDefinitionId.GetOr("")));
    ReplayWhen(Replay(Replay(s, key), id), Forwarded(a.processDefinitionIdIn),
      ProcessDefinitionIdIn(a.processDefinitionIdIn.GetOr([])));
  }

  /** The annotation's definition group replaces processDefinitionKey, processDefinitionKeyIn (when forwarded) and processDefinitionVersionTag. */
  lemma ReplayAnnotationDefinitionCalls(s: TopicFields, a: SubscriptionAnnotation)
    requires ArraysIndexable(a)
    ensures Replay(s, AnnotationDefinitionCalls(a)) ==
            s.(processDefinitionKey := Pick(a.processDefinitionKey, s.processDefinitionKey),
               processDefinitionKeyIn := Pick(DeclaredArray(a.processDefinitionKeyIn), s.processDefinitionKeyIn),
               processDefinitionVersionTag := Pick(a.processDefinitionVersionTag, s.processDefinitionVersionTag))
  {
    var key := When(a.processDefinitionKey.Some?, ProcessDefinitionKey(a.processDefinitionKey.GetOr("")));
    var keys := When(Forwarded(a.processDefinitionKeyIn), ProcessDefinitionKeyIn(a.processDefinitionKeyIn.GetOr([])));
    var tag := When(a.processDefinitionVersionTag.Some?, ProcessDefinitionVersionTag(a.processDefinitionVersionTag.GetOr("")));
    ReplayThree(s, key, keys, tag);
    ReplayWhen(s, a.processDefinitionKey.Some?, ProcessDefinitionKey(a.processDefinitionKey.GetOr("")));
    ReplayWhen(Replay(s, key), Forwarded(a.processDefinitionKeyIn), ProcessDefinitionKeyIn(a.processDefinitionKeyIn.GetOr([])));
    ReplayWhen(Replay(Replay(s, key), keys), a.processDefinitionVersionTag.Some?,
      ProcessDefinitionVersionTag(a.processDefinitionVersionTag.GetOr("")));
  }

  /** The annotation's tenant group raises withoutTenantId only when true, and replaces tenantIdIn (when forwarded) and includeExtensionProperties. */
  lemma ReplayAnnotationTenantCalls(s: TopicFields, a: SubscriptionAnnotation)
    requires ArraysIndexable(a)
    ensures Replay(s, AnnotationTenantCalls(a)) ==
            s.(withoutTenantId := Pick(DeclaredTrue(a.withoutTenantId), s.withoutTenantId),
               tenantIdIn := Pick(DeclaredArray(a.tenantIdIn), s.tenantIdIn),
               includeExtensionProperties := Pick(a.includeExtensionProperties, s.includeExtensionProperties))
  {
    var without := When(a.withoutTenantId == Some(true), WithoutTenantId);
    var tenants := When(Forwarded(a.tenantIdIn), TenantIdIn(a.tenantIdIn.GetOr([])));
    var extensions := When(a.includeExtensionProperties.Some?, IncludeExtensionProperties(a.includeExtensionProperties.GetOr(false)));
    ReplayThree(s, without, tenants, extensions);
    ReplayWhen(s, a.withoutTenantId == Some(true), WithoutTenantId);
    var first := Replay(s, without);
    assert first == s.(withoutTenantId := Pick(DeclaredTrue(a.withoutTenantId), s.withoutTenantId));
    ReplayWhen(first, Forwarded(a.tenantIdIn), TenantIdIn(a.tenantIdIn.GetOr([])));
    var second := Replay(first, tenants);
    assert second == first.(tenantIdIn := Pick(DeclaredArray(a.tenantIdIn), s.tenantIdIn));
    ReplayWhen(second, a.includeExtensionProperties.Some?, IncludeExtensionProperties(a.includeExtensionProperties.GetOr(false)));
    assert Replay(second, extensions) ==
           second.(includeExtensionProperties := Pick(a.includeExtensionProperties, s.includeExtensionProperties));
  }

  /** Replaying four traces one after the other. */
  lemma ReplayFour(s: TopicFields, first: seq<Call>, second: seq<Call>, third: seq<Call>, fourth: seq<Call>)
    ensures Replay(s, first + second + third + fourth) == Replay(Replay(Replay(Replay(s, first), second), third), fourth)
  {
    ReplayAppend(s, first + second + third, fourth);
    ReplayThree(s, first, second, third);
  }

  /**
   * `buildTopicSubscription` and the annotation overload of the mapper agree:
   * subscribing to the annotation's topic and forwarding its attributes leaves
   * a builder holding exactly the record the mapper produces.
   */
  lemma AnnotationCallsMatchMapper(a: SubscriptionAnnotation, handler: ExternalTaskHandler)
    requires a.topicName.Some? && ArraysIndexable(a)
    ensures Replay(Unset, [Subscribe(a.topicName.value), Handler(handler)] + AnnotationCalls(a)) == FromAnnotation(a)
  {
    var head := [Subscribe(a.topicName.value), Handler(handler)];
    var subscribed := Unset.(topicName := a.topicName);
    assert [Subscribe(a.topicName.value)][..0] == [];
    assert Replay(Unset, [Subscribe(a.topicName.value)]) == subscribed;
    assert head[..|head| - 1] == [Subscribe(a.topicName.value)];
    assert Replay(Unset, head) == subscribed;
    ReplayAppend(Unset, head, AnnotationCalls(a));
    var fetch, instance := AnnotationFetchCalls(a), AnnotationInstanceCalls(a);
    var definition, tenant := AnnotationDefinitionCalls(a), AnnotationTenantCalls(a);
    ReplayFour(subscribed, fetch, instance, definition, tenant);
    ReplayAnnotationFetchCalls(subscribed, a);
    ReplayAnnotationInstanceCalls(Replay(subscribed, fetch), a);
    ReplayAnnotationDefinitionCalls(Replay(Replay(subscribed, fetch), instance), a);
    ReplayAnnotationTenantCalls(Replay(Replay(Replay(subscribed, fetch), instance), definition), a);
  }

  /** The property's fetch group replaces lockDuration, variables and localVariables when they are set. */
  lemma ReplayPropertyFetchCalls(s: TopicFields, p: TopicFields)
    ensures Replay(s, PropertyFetchCalls(p)) ==
            s.(lockDuration := Pick(p.lockDuration, s.lockDuration),
               variables := Pick(p.variables, s.variables),
               localVariables := Pick(p.localVariables, s.localVariables))
  {
    var lock := When(p.lockDuration.Some?, LockDuration(p.lockDuration.GetOr(0)));
    var variables := When(p.variables.Some?, Variables(p.variables.GetOr([])));
    var local := When(p.localVariables.Some?, LocalVariables(p.localVariables.GetOr(false)));
    ReplayFour(s, lock, variables, variables, local);
    ReplayWhen(s, p.lockDuration.Some?, LockDuration(p.lockDuration.GetOr(0)));
    ReplayWhen(Replay(s, lock), p.variables.Some?, Variables(p.variables.GetOr([])));
    ReplayWhen(Replay(Replay(s, lock), variables), p.variables.Some?, Variables(p.variables.GetOr([])));
    ReplayWhen(Replay(Replay(Replay(s, lock), variables), variables), p.localVariables.Some?,
      LocalVariables(p.localVariables.GetOr(false)));
  }

  /** The property's instance group replaces businessKey, processDefinitionId and processDefinitionIdIn when they are set. */
  lemma ReplayPropertyInstanceCalls(s: TopicFields, p: TopicFields)
    ensures Replay(s, PropertyInstanceCalls(p)) ==
            s.(businessKey := Pick(p.businessKey, s.businessKey),
               processDefinitionId := Pick(p.processDefinitionId, s.processDefinitionId),
               processDefinitionIdIn := Pick(p.processDefinitionIdIn, s.processDefinitionIdIn))
  {
    var key := When(p.businessKey.Some?, BusinessKey(p.businessKey.GetOr("")));
    var id := When(p.processDefinitionId.Some?, ProcessDefinitionId(p.processDefinitionId.GetOr("")));
    var ids := When(p.processDefinitionIdIn.Some?, ProcessDefinitionIdIn(p.processDefinitionIdIn.GetOr([])));
    ReplayThree(s, key, id, ids);
    ReplayWhen(s, p.businessKey.Some?, BusinessKey(p.businessKey.GetOr("")));
    ReplayWhen(Replay(s, key), p.processDefinitionId.Some?, ProcessDefinitionId(p.processDefinitionId.GetOr("")));
    ReplayWhen(Replay(Replay(s, key), id), p.processDefinitionIdIn.Some?, ProcessDefinitionIdIn(p.processDefinitionIdIn.GetOr([])));
  }

  /** The property's definition group replaces processDefinitionKey, processDefinitionKeyIn and processDefinitionVersionTag when they are set. */
  lemma ReplayPropertyDefinitionCalls(s: TopicFields, p: TopicFields)
    ensures Replay(s, PropertyDefinitionCalls(p)) ==
            s.(processDefinitionKey := Pick(p.processDefinitionKey, s.processDefinitionKey),
               processDefinitionKeyIn := Pick(p.processDefinitionKeyIn, s.processDefinitionKeyIn),
               processDefinitionVersionTag := Pick(p.processDefinitionVersionTag, s.processDefinitionVersionTag))
  {
    var key := When(p.processDefinitionKey.Some?, ProcessDefinitionKey(p.processDefinitionKey.GetOr("")));
    var keys := When(p.processDefinitionKeyIn.Some?, ProcessDefinitionKeyIn(p.processDefinitionKeyIn.GetOr([])));
    var tag := When(p.processDefinitionVersionTag.Some?, ProcessDefinitionVersionTag(p.processDefinitionVersionTag.GetOr("")));
    ReplayThree(s, key, keys, tag);
    ReplayWhen(s, p.processDefinitionKey.Some?, ProcessDefinitionKey(p.processDefinitionKey.GetOr("")));
    ReplayWhen(Replay(s, key), p.processDefinitionKeyIn.Some?, ProcessDefinitionKeyIn(p.processDefinitionKeyIn.GetOr([])));
    ReplayWhen(Replay(Replay(s, key), keys), p.processDefinitionVersionTag.Some?,
      ProcessDefinitionVersionTag(p.processDefinitionVersionTag.GetOr("")));
  }

  /** The property's tenant group raises the two flags only when they are true and replaces tenantIdIn when it is set. */
  lemma ReplayPropertyTenantCalls(s: TopicFields, p: TopicFields)
    ensures Replay(s, PropertyTenantCalls(p)) ==
            s.(withoutTenantId := Pick(DeclaredTrue(p.withoutTenantId), s.withoutTenantId),
               tenantIdIn := Pick(p.tenantIdIn, s.tenantIdIn),
               includeExtensionProperties := Pick(DeclaredTrue(p.includeExtensionProperties), s.includeExtensionProperties))
  {
    var without := When(p.withoutTenantId == Some(true), WithoutTenantId);
    var tenants := When(p.tenantIdIn.Some?, TenantIdIn(p.tenantIdIn.GetOr([])));
    var extensions := When(p.includeExtensionProperties == Some(true), IncludeExtensionProperties(true));
    ReplayThree(s, without, tenants, extensions);
    ReplayWhen(s, p.withoutTenantId == Some(true), WithoutTenantId);
    var first := Replay(s, without);
    assert first == s.(withoutTenantId := Pick(DeclaredTrue(p.withoutTenantId), s.withoutTenantId));
    ReplayWhen(first, p.tenantIdIn.Some?, TenantIdIn(p.tenantIdIn.GetOr([])));
    var second := Replay(first, tenants);
    assert second == first.(tenantIdIn := Pick(p.tenantIdIn, s.tenantIdIn));
    ReplayWhen(second, p.includeExtensionProperties == Some(true), IncludeExtensionProperties(true));
    assert Replay(second, extensions) ==
           second.(includeExtensionProperties := Pick(DeclaredTrue(p.includeExtensionProperties), s.includeExtensionProperties));
  }

  /** The override step leaves the builder in the state `Overlay` describes. */
  lemma ReplayPropertyCalls(s: TopicFields, p: TopicFields)
    ensures Replay(s, PropertyCalls(p)) == Overlay(s, p)
  {
    var fetch, instance := PropertyFetchCalls(p), PropertyInstanceCalls(p);
    var definition, tenant := PropertyDefinitionCalls(p), PropertyTenantCalls(p);
    ReplayFour(s, fetch, instance, definition, tenant);
    ReplayPropertyFetchCalls(s, p);
    ReplayPropertyInstanceCalls(Replay(s, fetch), p);
    ReplayPropertyDefinitionCalls(Replay(Replay(s, fetch), instance), p);
    ReplayPropertyTenantCalls(Replay(Replay(Replay(s, fetch), instance), definition), p);
  }

  /** `open()` changes no setting. */
  lemma ReplayOpen(s: TopicFields, calls: seq<Call>)
    ensures Replay(s, calls + [Open]) == Replay(s, calls)
  {
    assert (calls + [Open])[..|calls|] == calls;
  }

  /** `open()` changes no setting: a trace closed by it leaves what its two parts leave. */
  lemma ReplayUpToOpen(s: TopicFields, built: seq<Call>, overridden: seq<Call>)
    ensures Replay(s, built + overridden + [Open]) == Replay(Replay(s, built), overridden)
  {
    ReplayOpen(s, built + overridden);
    ReplayAppend(s, built, overridden);
  }

  /**
   * The subscription an annotated handler ends up with: the annotation's
   * record, overlaid with the property bean bound under its topic name if
   * there is one, and the annotation's record alone otherwise.
   */
  lemma HandlerSettings(d: HandlerDefinition, properties: map<string, TopicFields>)
    requires d.annotation.Some? && Registrable(d)
    ensures var a := d.annotation.value;
            var topicName := a.topicName.value;
            Replay(Unset, HandlerCalls(d, properties)) ==
              if topicName in properties then Overlay(FromAnnotation(a), properties[topicName]) else FromAnnotation(a)
  {
    var a := d.annotation.value;
    var topicName := a.topicName.value;
    var built := [Subscribe(topicName), Handler(d.handler)] + AnnotationCalls(a);
    var overridden := if topicName in properties then PropertyCalls(properties[topicName]) else [];
    assert HandlerCalls(d, properties) == built + overridden + [Open];
    ReplayUpToOpen(Unset, built, overridden);
    AnnotationCallsMatchMapper(a, d.handler);
    if topicName in properties {
      ReplayPropertyCalls(FromAnnotation(a), properties[topicName]);
    } else {
      assert built + overridden == built;
    }
  }

  /** A trace made of two calls, two runs of setter calls and `open()` keeps those parts at their places. */
  lemma SubscriptionShape(subscribe: Call, handler: Call, built: seq<Call>, overridden: seq<Call>)
    requires forall c <- built :: c.IsSetter()
    requires forall c <- overridden :: c.IsSetter()
    ensures var calls := [subscribe, handler] + built + overridden + [Open];
            |calls| >= 3 && calls[0] == subscribe && calls[1] == handler && calls[|calls| - 1] == Open &&
            forall i :: 2 <= i < |calls| - 1 ==> calls[i].IsSetter()
  {
    var calls := [subscribe, handler] + built + overridden + [Open];
    forall i | 2 <= i < |calls| - 1
      ensures calls[i].IsSetter()
    {
      if i < 2 + |built| {
        assert calls[i] == built[i - 2];
      } else {
        assert calls[i] == overridden[i - 2 - |built|];
      }
    }
  }

  /**
   * An annotated handler's trace: one `subscribe` to its topic, then one
   * `handler`, then only setter calls, and one `open` as the very last call.
   */
  lemma HandlerCallsShape(d: HandlerDefinition, properties: map<string, TopicFields>)
    requires d.annotation.Some? && Registrable(d)
    ensures var calls := HandlerCalls(d, properties);
            |calls| >= 3 && calls[0] == Subscribe(d.annotation.value.topicName.value) &&
            calls[1] == Handler(d.handler) && calls[|calls| - 1] == Open &&
            forall i :: 2 <= i < |calls| - 1 ==> calls[i].IsSetter()
  {
    var a := d.annotation.value;
    var topicName := a.topicName.value;
    var overridden := if topicName in properties then PropertyCalls(properties[topicName]) else [];
    assert HandlerCalls(d, properties) == [Subscribe(topicName), Handler(d.handler)] + AnnotationCalls(a) + overridden + [Open];
    SubscriptionShape(Subscribe(topicName), Handler(d.handler), AnnotationCalls(a), overridden);
  }

  /** The topics subscribed to, in the order of the definitions, one per annotated definition. */
  function DeclaredTopics(definitions: seq<HandlerDefinition>): seq<string>
    requires forall d <- definitions :: Registrable(d)
    decreases |definitions|
  {
    if definitions == [] then []
    else
      var last := |definitions| - 1;
      var d := definitions[last];
      assert d in definitions && Registrable(d);
      DeclaredTopics(definitions[..last]) + if d.annotation.Some? then [d.annotation.value.topicName.value] else []
  }

  /** The topics of the `subscribe` calls of a trace, in order. */
  function SubscribedTopics(calls: seq<Call>): seq<string>
    decreases |calls|
  {
    if calls == [] then []
    else
      var last := |calls| - 1;
      SubscribedTopics(calls[..last]) + if calls[last].Subscribe? then [calls[last].topicName] else []
  }

  /** The number of `open` calls in a trace. */
  function Opens(calls: seq<Call>): nat
    decreases |calls|
  {
    if calls == [] then 0
    else
      var last := |calls| - 1;
      Opens(calls[..last]) + if calls[last].Open? then 1 else 0
  }

  /** Both counts distribute over concatenation. */
  lemma {:induction false} CountsAppend(first: seq<Call>, second: seq<Call>)
    ensures SubscribedTopics(first + second) == SubscribedTopics(first) + SubscribedTopics(second)
    ensures Opens(first + second) == Opens(first) + Opens(second)
    decreases |second|
  {
    if second == [] {
      assert first + second == first;
    } else {
      var last := |second| - 1;
      assert (first + second)[..|first + second| - 1] == first + second[..last];
      CountsAppend(first, second[..last]);
    }
  }

  /** A trace of setter calls subscribes to nothing and opens nothing. */
  lemma {:induction false} SettersCountNothing(calls: seq<Call>)
    requires forall c <- calls :: c.IsSetter()
    ensures SubscribedTopics(calls) == [] && Opens(calls) == 0
    decreases |calls|
  {
    if calls != [] {
      var last := |calls| - 1;
      assert calls[last] in calls;
      assert forall c <- calls[..last] :: c in calls;
      SettersCountNothing(calls[..last]);
    }
  }

  /** One subscription's trace subscribes to its topic once and opens once. */
  lemma SubscriptionCounts(topicName: string, handler: ExternalTaskHandler, built: seq<Call>, overridden: seq<Call>)
    requires forall c <- built :: c.IsSetter()
    requires forall c <- overridden :: c.IsSetter()
    ensures var calls := [Subscribe(topicName), Handler(handler)] + built + overridden + [Open];
            SubscribedTopics(calls) == [topicName] && Opens(calls) == 1
  {
    var head := [Subscribe(topicName), Handler(handler)];
    SettersCountNothing(built);
    SettersCountNothing(overridden);
    CountsAppend([Subscribe(topicName)], [Handler(handler)]);
    assert head == [Subscribe(topicName)] + [Handler(handler)];
    CountsAppend(head, built);
    CountsAppend(head + built, overridden);
    CountsAppend(head + built + overridden, [Open]);
    assert [Subscribe(topicName)][..0] == [] && [Handler(handler)][..0] == [] && [Open][..0] == [];
  }

  /** One definition's trace subscribes to its topic and opens once if it is annotated, and does nothing otherwise. */
  lemma HandlerCounts(d: HandlerDefinition, properties: map<string, TopicFields>)
    requires Registrable(d)
    ensures SubscribedTopics(HandlerCalls(d, properties)) ==
              if d.annotation.Some? then [d.annotation.value.topicName.value] else []
    ensures Opens(HandlerCalls(d, properties)) == if d.annotation.Some? then 1 else 0
  {
    if d.annotation.Some? {
      var a := d.annotation.value;
      var topicName := a.topicName.value;
      var overridden := if topicName in properties then PropertyCalls(properties[topicName]) else [];
      assert HandlerCalls(d, properties) == [Subscribe(topicName), Handler(d.handler)] + AnnotationCalls(a) + overridden + [Open];
      SubscriptionCounts(topicName, d.handler, AnnotationCalls(a), overridden);
    }
  }

  /**
   * The whole registration pass subscribes to the declared topics, in the
   * order of the definitions, and opens exactly one subscription per
   * annotated definition.
   */
  lemma {:induction false} RegistrationSubscribesDeclaredTopics(
    definitions: seq<HandlerDefinition>, properties: map<string, TopicFields>)
    requires forall d <- definitions :: Registrable(d)
    ensures SubscribedTopics(RegistrationCalls(definitions, properties)) == DeclaredTopics(definitions)
    ensures Opens(RegistrationCalls(definitions, properties)) == |DeclaredTopics(definitions)|
    decreases |definitions|
  {
    if definitions != [] {
      var last := |definitions| - 1;
      var d, prefix := definitions[last], definitions[..last];
      assert d in definitions;
      assert forall e <- prefix :: e in definitions;
      var before, calls := RegistrationCalls(prefix, properties), HandlerCalls(d, properties);
      assert RegistrationCalls(definitions, properties) == before + calls;
      assert DeclaredTopics(definitions) ==
        DeclaredTopics(prefix) + if d.annotation.Some? then [d.annotation.value.topicName.value] else [];
      RegistrationSubscribesDeclaredTopics(prefix, properties);
      CountsAppend(before, calls);
      HandlerCounts(d, properties);
    }
  }

  /** Every definition is either subscribed to or named in a warning, never both. */
  lemma {:induction false} EveryDefinitionAccounted(definitions: seq<HandlerDefinition>)
    requires forall d <- definitions :: Registrable(d)
    ensures |DeclaredTopics(definitions)| + |Warnings(definitions)| == |definitions|
    decreases |definitions|
  {
    if definitions != [] {
      var last := |definitions| - 1;
      assert forall e <- definitions[..last] :: e in definitions;
      EveryDefinitionAccounted(definitions[..last]);
    }
  }

  /**
   * The builder path and the record path (property mapper followed by the
   * corrected merge) agree on every setting except localVariables, which the
   * property mapper never copies, provided the bean's topicName, if it set
   * one, is the topic it is bound under.
   */
  lemma BuilderPathMatchesRecordPath(base: TopicFields, p: TopicFields)
    requires p.topicName.None? || p.topicName == base.topicName
    ensures OverrideIntended(base, FromProperty(p)) == Overlay(base, p).(localVariables := base.localVariables)
  {
  }

  class ExternalTaskClient {
    /** Every call issued on this client and on the builders it handed out, in order. */
    var calls: seq<Call>

    constructor ()
      ensures calls == []
    {
      calls := [];
    }

    /** `subscribe(topicName)`: starts a builder for the topic. */
    method Subscribe(topicName: string) returns (builder: TopicSubscriptionBuilder)
      modifies this
      ensures fresh(builder) && builder.client == this
      ensures calls == old(calls) + [Call.Subscribe(topicName)]
    {
      builder := new TopicSubscriptionBuilder(this);
      calls := calls + [Call.Subscribe(topicName)];
    }
  }

  /** A `TopicSubscriptionBuilder`; each call is recorded on the client it came from. */
  class TopicSubscriptionBuilder {
    const client: ExternalTaskClient

    constructor (client: ExternalTaskClient)
      ensures this.client == client
    {
      this.client := client;
    }

    method Handler(handler: ExternalTaskHandler)
      modifies client
      ensures client.calls == old(client.calls) + [Call.Handler(handler)]
    {
      client.calls := client.calls + [Call.Handler(handler)];
    }

    method LockDuration(v: int)
      modifies client
      ensures client.calls == old(client.calls) + [Call.LockDuration(v)]
    {
      client.calls := client.calls + [Call.LockDuration(v)];
    }

    method Variables(v: seq<string>)
      modifies client
      ensures client.calls == old(client.calls) + [Call.Variables(v)]
    {
      client.calls := client.calls + [Call.Variables(v)];
    }

    method LocalVariables(b: bool)
      modifies client
      ensures client.calls == old(client.calls) + [Call.LocalVariables(b)]
    {
      client.calls := client.calls + [Call.LocalVariables(b)];
    }

    method BusinessKey(v: string)
      modifies client
      ensures client.calls == old(client.calls) + [Call.BusinessKey(v)]
    {
      client.calls := client.calls + [Call.BusinessKey(v)];
    }

    method ProcessDefinitionId(v: string)
      modifies client
      ensures client.calls == old(client.calls) + [Call.ProcessDefinitionId(v)]
    {
      client.calls := client.calls + [Call.ProcessDefinitionId(v)];
    }

    method ProcessDefinitionIdIn(v: seq<string>)
      modifies client
      ensures client.calls == old(client.calls) + [Call.ProcessDefinitionIdIn(v)]
    {
      client.calls := client.calls + [Call.ProcessDefinitionIdIn(v)];
    }

    method ProcessDefinitionKey(v: string)
      modifies client
      ensures client.calls == old(client.calls) + [Call.ProcessDefinitionKey(v)]
    {
      client.calls := client.calls + [Call.ProcessDefinitionKey(v)];
    }

    method ProcessDefinitionKeyIn(v: seq<string>)
      modifies client
      ensures client.calls == old(client.calls) + [Call.ProcessDefinitionKeyIn(v)]
    {
      client.calls := client.calls + [Call.ProcessDefinitionKeyIn(v)];
    }

    method ProcessDefinitionVersionTag(v: string)
      modifies client
      ensures client.calls == old(client.calls) + [Call.ProcessDefinitionVersionTag(v)]
    {
      client.calls := client.calls + [Call.ProcessDefinitionVersionTag(v)];
    }

    method WithoutTenantId()
      modifies client
      ensures client.calls == old(client.calls) + [Call.WithoutTenantId]
    {
      client.calls := client.calls + [Call.WithoutTenantId];
    }

    method TenantIdIn(v: seq<string>)
      modifies client
      ensures client.calls == old(client.calls) + [Call.TenantIdIn(v)]
    {
      client.calls := client.calls + [Call.TenantIdIn(v)];
    }

    method IncludeExtensionProperties(b: bool)
      modifies client
      ensures client.calls == old(client.calls) + [Call.IncludeExtensionProperties(b)]
    {
      client.calls := client.calls + [Call.IncludeExtensionProperties(b)];
    }

    method Open()
      modifies client
      ensures client.calls == old(client.calls) + [Call.Open]
    {
      client.calls := client.calls + [Call.Open];
    }
  }

  /*
   * buildTopicSubscription and overrideAnnotationWithConfigurationProperties,
   * group by group: each group appends its calls to the client's trace.
   */

  /** A conditional statement appends its call exactly when its condition holds. */
  lemma Issue(before: seq<Call>, after: seq<Call>, condition: bool, c: Call)
    requires after == if condition then before + [c] else before
    ensures after == before + When(condition, c)
  {
    if !condition {
      assert before + [] == before;
    }
  }

  /** Three statements append their calls one after the other. */
  lemma ThreeIssued(before: seq<Call>, first: seq<Call>, second: seq<Call>, third: seq<Call>,
                    x: seq<Call>, y: seq<Call>, z: seq<Call>)
    requires first == before + x && second == first + y && third == second + z
    ensures third == before + (x + y + z)
  {
    Associate(before, x, y);
    Associate(before, x + y, z);
  }

  /** Four groups of statements append their calls one after the other. */
  lemma FourGroups(issued: seq<Call>, fetched: seq<Call>, instances: seq<Call>, definitions: seq<Call>, tenants: seq<Call>,
                   f: seq<Call>, i: seq<Call>, d: seq<Call>, t: seq<Call>)
    requires fetched == issued + f && instances == fetched + i
    requires definitions == instances + d && tenants == definitions + t
    ensures tenants == issued + (f + i + d + t)
  {
    ThreeIssued(issued, fetched, instances, definitions, f, i, d);
    Associate(issued, f + i + d, t);
  }

  /** The statements for lockDuration, variables and localVariables. */
  method ForwardFetchAttributes(builder: TopicSubscriptionBuilder, a: SubscriptionAnnotation)
    requires ArraysIndexable(a)
    modifies builder.client
    ensures builder.client.calls == old(builder.client.calls) + AnnotationFetchCalls(a)
  {
    ghost var before := builder.client.calls;
    if a.lockDuration.Some? {
      builder.LockDuration(a.lockDuration.value);
    }
    ghost var first := builder.client.calls;
    Issue(before, first, a.lockDuration.Some?, LockDuration(a.lockDuration.GetOr(0)));
    if a.variables.Some? && a.variables.value[0] != "" {
      builder.Variables(a.variables.value);
    }
    ghost var second := builder.client.calls;
    Issue(first, second, Forwarded(a.variables), Variables(a.variables.GetOr([])));
    if a.localVariables.Some? {
      builder.LocalVariables(a.localVariables.value);
    }
    Issue(second, builder.client.calls, a.localVariables.Some?, LocalVariables(a.localVariables.GetOr(false)));
    ThreeIssued(before, first, second, builder.client.calls,
      When(a.lockDuration.Some?, LockDuration(a.lockDuration.GetOr(0))),
      When(Forwarded(a.variables), Variables(a.variables.GetOr([]))),
      When(a.localVariables.Some?, LocalVariables(a.localVariables.GetOr(false))));
  }

  /** The statements for businessKey, processDefinitionId and processDefinitionIdIn. */
  method ForwardInstanceAttributes(builder: TopicSubscriptionBuilder, a: SubscriptionAnnotation)
    requires ArraysIndexable(a)
    modifies builder.client
    ensures builder.client.calls == old(builder.client.calls) + AnnotationInstanceCalls(a)
  {
    ghost var before := builder.client.calls;
    if a.businessKey.Some? {
      builder.BusinessKey(a.businessKey.value);
    }
    ghost var first := builder.client.calls;
    Issue(before, first, a.businessKey.Some?, BusinessKey(a.businessKey.GetOr("")));
    if a.processDefinitionId.Some? {
      builder.ProcessDefinitionId(a.processDefinitionId.value);
    }
    ghost var second := builder.client.calls;
    Issue(first, second, a.processDefinitionId.Some?, ProcessDefinitionId(a.processDefinitionId.GetOr("")));
    if a.processDefinitionIdIn.Some? && a.processDefinitionIdIn.value[0] != "" {
      builder.ProcessDefinitionIdIn(a.processDefinitionIdIn.value);
    }
    Issue(second, builder.client.calls, Forwarded(a.processDefinitionIdIn), ProcessDefinitionIdIn(a.processDefinitionIdIn.GetOr([])));
    ThreeIssued(before, first, second, builder.client.calls,
      When(a.businessKey.Some?, BusinessKey(a.businessKey.GetOr(""))),
      When(a.processDefinitionId.Some?, ProcessDefinitionId(a.processDefinitionId.GetOr(""))),
      When(Forwarded(a.processDefinitionIdIn), ProcessDefinitionIdIn(a.processDefinitionIdIn.GetOr([]))));
  }

  /** The statements for processDefinitionKey, processDefinitionKeyIn and processDefinitionVersionTag. */
  method ForwardDefinitionAttributes(builder: TopicSubscriptionBuilder, a: SubscriptionAnnotation)
    requires ArraysIndexable(a)
    modifies builder.client
    ensures builder.client.calls == old(builder.client.calls) + AnnotationDefinitionCalls(a)
  {
    ghost var before := builder.client.calls;
    if a.processDefinitionKey.Some? {
      builder.ProcessDefinitionKey(a.processDefinitionKey.value);
    }
    ghost var first := builder.client.calls;
    Issue(before, first, a.processDefinitionKey.Some?, ProcessDefinitionKey(a.processDefinitionKey.GetOr("")));
    if a.processDefinitionKeyIn.Some? && a.processDefinitionKeyIn.value[0] != "" {
      builder.ProcessDefinitionKeyIn(a.processDefinitionKeyIn.value);
    }
    ghost var second := builder.client.calls;
    Issue(first, second, Forwarded(a.processDefinitionKeyIn), ProcessDefinitionKeyIn(a.processDefinitionKeyIn.GetOr([])));
    if a.processDefinitionVersionTag.Some? {
      builder.ProcessDefinitionVersionTag(a.processDefinitionVersionTag.value);
    }
    Issue(second, builder.client.calls, a.processDefinitionVersionTag.Some?,
      ProcessDefinitionVersionTag(a.processDefinitionVersionTag.GetOr("")));
    ThreeIssued(before, first, second, builder.client.calls,
      When(a.processDefinitionKey.Some?, ProcessDefinitionKey(a.processDefinitionKey.GetOr(""))),
      When(Forwarded(a.processDefinitionKeyIn), ProcessDefinitionKeyIn(a.processDefinitionKeyIn.GetOr([]))),
      When(a.processDefinitionVersionTag.Some?, ProcessDefinitionVersionTag(a.processDefinitionVersionTag.GetOr(""))));
  }

  /** The statements for withoutTenantId, tenantIdIn and includeExtensionProperties. */
  method ForwardTenantAttributes(builder: TopicSubscriptionBuilder, a: SubscriptionAnnotation)
    requires ArraysIndexable(a)
    modifies builder.client
    ensures builder.client.calls == old(builder.client.calls) + AnnotationTenantCalls(a)
  {
    ghost var before := builder.client.calls;
    if a.withoutTenantId.Some? && a.withoutTenantId.value {
      builder.WithoutTenantId();
    }
    ghost var first := builder.client.calls;
    Issue(before, first, a.withoutTenantId == Some(true), WithoutTenantId);
    if a.tenantIdIn.Some? && a.tenantIdIn.value[0] != "" {
      builder.TenantIdIn(a.tenantIdIn.value);
    }
    ghost var second := builder.client.calls;
    Issue(first, second, Forwarded(a.tenantIdIn), TenantIdIn(a.tenantIdIn.GetOr([])));
    if a.includeExtensionProperties.Some? {
      builder.IncludeExtensionProperties(a.includeExtensionProperties.value);
    }
    Issue(second, builder.client.calls, a.includeExtensionProperties.Some?,
      IncludeExtensionProperties(a.includeExtensionProperties.GetOr(false)));
    ThreeIssued(before, first, second, builder.client.calls,
      When(a.withoutTenantId == Some(true), WithoutTenantId),
      When(Forwarded(a.tenantIdIn), TenantIdIn(a.tenantIdIn.GetOr([]))),
      When(a.includeExtensionProperties.Some?, IncludeExtensionProperties(a.includeExtensionProperties.GetOr(false))));
  }

  /** The attribute statements of `buildTopicSubscription`, after `handler(...)`. */
  method ForwardAttributes(builder: TopicSubscriptionBuilder, a: SubscriptionAnnotation)
    requires ArraysIndexable(a)
    modifies builder.client
    ensures builder.client.calls == old(builder.client.calls) + AnnotationCalls(a)
  {
    ghost var issued := builder.client.calls;
    ForwardFetchAttributes(builder, a);
    ghost var fetched := builder.client.calls;
    ForwardInstanceAttributes(builder, a);
    ghost var instances := builder.client.calls;
    ForwardDefinitionAttributes(builder, a);
    ghost var definitions := builder.client.calls;
    ForwardTenantAttributes(builder, a);
    FourGroups(issued, fetched, instances, definitions, builder.client.calls,
      AnnotationFetchCalls(a), AnnotationInstanceCalls(a), AnnotationDefinitionCalls(a), AnnotationTenantCalls(a));
  }

  /** `buildTopicSubscription`: subscribe to the annotation's topic, pass the handler, forward the attributes. */
  method BuildTopicSubscription(handler: ExternalTaskHandler, client: ExternalTaskClient, a: SubscriptionAnnotation)
    returns (builder: TopicSubscriptionBuilder)
    requires a.topicName.Some? && ArraysIndexable(a)
    modifies client
    ensures fresh(builder) && builder.client == client
    ensures client.calls == old(client.calls) + [Subscribe(a.topicName.value), Handler(handler)] + AnnotationCalls(a)
  {
    builder := client.Subscribe(a.topicName.value);
    builder.Handler(handler);
    ForwardAttributes(builder, a);
  }

  /*
   * overrideAnnotationWithConfigurationProperties. The bean is not changed
   * while its getters are read, so each group is given the bean's values.
   */

  /** The statements for lockDuration, variables (twice, as written) and localVariables. */
  method OverrideFetchSettings(p: TopicFields, builder: TopicSubscriptionBuilder)
    modifies builder.client
    ensures builder.client.calls == old(builder.client.calls) + PropertyFetchCalls(p)
  {
    ghost var before := builder.client.calls;
    if p.lockDuration.Some? {
      builder.LockDuration(p.lockDuration.value);
    }
    ghost var first := builder.client.calls;
    Issue(before, first, p.lockDuration.Some?, LockDuration(p.lockDuration.GetOr(0)));
    if p.variables.Some? {
      builder.Variables(p.variables.value);
    }
    ghost var second := builder.client.calls;
    Issue(first, second, p.variables.Some?, Variables(p.variables.GetOr([])));
    if p.variables.Some? {
      builder.Variables(p.variables.value);
    }
    ghost var third := builder.client.calls;
    Issue(second, third, p.variables.Some?, Variables(p.variables.GetOr([])));
    if p.localVariables.Some? {
      builder.LocalVariables(p.localVariables.value);
    }
    Issue(third, builder.client.calls, p.localVariables.Some?, LocalVariables(p.localVariables.GetOr(false)));
    var lock := When(p.lockDuration.Some?, LockDuration(p.lockDuration.GetOr(0)));
    var variables := When(p.variables.Some?, Variables(p.variables.GetOr([])));
    var local := When(p.localVariables.Some?, LocalVariables(p.localVariables.GetOr(false)));
    FourGroups(before, first, second, third, builder.client.calls, lock, variables, variables, local);
  }

  /** The statements for businessKey, processDefinitionId and processDefinitionIdIn. */
  method OverrideInstanceSettings(p: TopicFields, builder: TopicSubscriptionBuilder)
    modifies builder.client
    ensures builder.client.calls == old(builder.client.calls) + PropertyInstanceCalls(p)
  {
    ghost var before := builder.client.calls;
    if p.businessKey.Some? {
      builder.BusinessKey(p.businessKey.value);
    }
    ghost var first := builder.client.calls;
    Issue(before, first, p.businessKey.Some?, BusinessKey(p.businessKey.GetOr("")));
    if p.processDefinitionId.Some? {
      builder.ProcessDefinitionId(p.processDefinitionId.value);
    }
    ghost var second := builder.client.calls;
    Issue(first, second, p.processDefinitionId.Some?, ProcessDefinitionId(p.processDefinitionId.GetOr("")));
    if p.processDefinitionIdIn.Some? {
      builder.ProcessDefinitionIdIn(p.processDefinitionIdIn.value);
    }
    Issue(second, builder.client.calls, p.processDefinitionIdIn.Some?, ProcessDefinitionIdIn(p.processDefinitionIdIn.GetOr([])));
    ThreeIssued(before, first, second, builder.client.calls,
      When(p.businessKey.Some?, BusinessKey(p.businessKey.GetOr(""))),
      When(p.processDefinitionId.Some?, ProcessDefinitionId(p.processDefinitionId.GetOr(""))),
      When(p.processDefinitionIdIn.Some?, ProcessDefinitionIdIn(p.processDefinitionIdIn.GetOr([]))));
  }

  /** The statements for processDefinitionKey, processDefinitionKeyIn and processDefinitionVersionTag. */
  method OverrideDefinitionSettings(p: TopicFields, builder: TopicSubscriptionBuilder)
    modifies builder.client
    ensures builder.client.calls == old(builder.client.calls) + PropertyDefinitionCalls(p)
  {
    ghost var before := builder.client.calls;
    if p.processDefinitionKey.Some? {
      builder.ProcessDefinitionKey(p.processDefinitionKey.value);
    }
    ghost var first := builder.client.calls;
    Issue(before, first, p.processDefinitionKey.Some?, ProcessDefinitionKey(p.processDefinitionKey.GetOr("")));
    if p.processDefinitionKeyIn.Some? {
      builder.ProcessDefinitionKeyIn(p.processDefinitionKeyIn.value);
    }
    ghost var second := builder.client.calls;
    Issue(first, second, p.processDefinitionKeyIn.Some?, ProcessDefinitionKeyIn(p.processDefinitionKeyIn.GetOr([])));
    if p.processDefinitionVersionTag.Some? {
      builder.ProcessDefinitionVersionTag(p.processDefinitionVersionTag.value);
    }
    Issue(second, builder.client.calls, p.processDefinitionVersionTag.Some?,
      ProcessDefinitionVersionTag(p.processDefinitionVersionTag.GetOr("")));
    ThreeIssued(before, first, second, builder.client.calls,
      When(p.processDefinitionKey.Some?, ProcessDefinitionKey(p.processDefinitionKey.GetOr(""))),
      When(p.processDefinitionKeyIn.Some?, ProcessDefinitionKeyIn(p.processDefinitionKeyIn.GetOr([]))),
      When(p.processDefinitionVersionTag.Some?, ProcessDefinitionVersionTag(p.processDefinitionVersionTag.GetOr(""))));
  }

  /** The statements for withoutTenantId, tenantIdIn and includeExtensionProperties; the flags only when true. */
  method OverrideTenantSettings(p: TopicFields, builder: TopicSubscriptionBuilder)
    modifies builder.client
    ensures builder.client.calls == old(builder.client.calls) + PropertyTenantCalls(p)
  {
    ghost var before := builder.client.calls;
    if p.withoutTenantId.Some? && p.withoutTenantId.value {
      builder.WithoutTenantId();
    }
    ghost var first := builder.client.calls;
    Issue(before, first, p.withoutTenantId == Some(true), WithoutTenantId);
    if p.tenantIdIn.Some? {
      builder.TenantIdIn(p.tenantIdIn.value);
    }
    ghost var second := builder.client.calls;
    Issue(first, second, p.tenantIdIn.Some?, TenantIdIn(p.tenantIdIn.GetOr([])));
    if p.includeExtensionProperties.Some? && p.includeExtensionProperties.value {
      builder.IncludeExtensionProperties(p.includeExtensionProperties.value);
    }
    Issue(second, builder.client.calls, p.includeExtensionProperties == Some(true), IncludeExtensionProperties(true));
    ThreeIssued(before, first, second, builder.client.calls,
      When(p.withoutTenantId == Some(true), WithoutTenantId),
      When(p.tenantIdIn.Some?, TenantIdIn(p.tenantIdIn.GetOr([]))),
      When(p.includeExtensionProperties == Some(true), IncludeExtensionProperties(true)));
  }

  /**
   * `overrideAnnotationWithConfigurationProperties`: every non-null setting of
   * the bean is issued again on the builder, after the annotation's.
   */
  method OverrideAnnotationWithConfigurationProperties(property: TopicConfigurationProperty, builder: TopicSubscriptionBuilder)
    modifies builder.client
    ensures builder.client.calls == old(builder.client.calls) + PropertyCalls(property.Value())
  {
    var p := property.Value();
    ghost var issued := builder.client.calls;
    OverrideFetchSettings(p, builder);
    ghost var fetched := builder.client.calls;
    OverrideInstanceSettings(p, builder);
    ghost var instances := builder.client.calls;
    OverrideDefinitionSettings(p, builder);
    ghost var definitions := builder.client.calls;
    OverrideTenantSettings(p, builder);
    FourGroups(issued, fetched, instances, definitions, builder.client.calls,
      PropertyFetchCalls(p), PropertyInstanceCalls(p), PropertyDefinitionCalls(p), PropertyTenantCalls(p));
  }

  /** One definition's trace, issued in three parts and closed by `open()`. */
  lemma HandlerTrace(d: HandlerDefinition, properties: map<string, TopicFields>,
                     issued: seq<Call>, built: seq<Call>, overridden: seq<Call>, finished: seq<Call>)
    requires d.annotation.Some? && Registrable(d)
    requires built == issued + [Subscribe(d.annotation.value.topicName.value), Handler(d.handler)] + AnnotationCalls(d.annotation.value)
    requires var topicName := d.annotation.value.topicName.value;
             overridden == built + if topicName in properties then PropertyCalls(properties[topicName]) else []
    requires finished == overridden + [Open]
    ensures finished == issued + HandlerCalls(d, properties)
  {
    var a := d.annotation.value;
    var topicName := a.topicName.value;
    var head, forwarded := [Subscribe(topicName), Handler(d.handler)], AnnotationCalls(a);
    var overriding := if topicName in properties then PropertyCalls(properties[topicName]) else [];
    assert HandlerCalls(d, properties) == head + forwarded + overriding + [Open];
    Associate(issued, head, forwarded);
    Associate(issued, head + forwarded, overriding);
    Associate(issued, head + forwarded + overriding, [Open]);
  }


  /** Concatenation is associative. */
  lemma Associate(first: seq<Call>, second: seq<Call>, third: seq<Call>)
    ensures first + second + third == first + (second + third)
  {
  }

  /** The constructor's pass, one definition further. */
  lemma RegistrationStep(definitions: seq<HandlerDefinition>, i: nat, properties: map<string, TopicFields>,
                         initial: seq<Call>, registered: seq<Call>, current: seq<Call>)
    requires forall d <- definitions :: Registrable(d)
    requires i < |definitions|
    requires registered == initial + RegistrationCalls(definitions[..i], properties)
    requires current == registered + HandlerCalls(definitions[i], properties)
    ensures current == initial + RegistrationCalls(definitions[..i + 1], properties)
  {
    var done, next := definitions[..i], definitions[..i + 1];
    assert next[..i] == done;
    assert forall d <- next :: d in definitions;
    var before, calls := RegistrationCalls(done, properties), HandlerCalls(definitions[i], properties);
    assert RegistrationCalls(next, properties) == before + calls;
    Associate(initial, before, calls);
  }

  /** The constructor's warnings, one definition further. */
  lemma WarningsStep(definitions: seq<HandlerDefinition>, i: nat)
    requires i < |definitions|
    ensures Warnings(definitions[..i + 1]) ==
            Warnings(definitions[..i]) + if definitions[i].annotation.None? then [definitions[i].name] else []
  {
    assert definitions[..i + 1][..i] == definitions[..i];
  }

  /**
   * The creator bean: at construction it registers every handler definition
   * with the client, in order. `properties` are the property beans by the
   * name they are bound under; `warnings` are the names of the skipped
   * definitions, as logged.
   */
  class ExternalWorkerSubscriptionCreator {
    const client: ExternalTaskClient
    const properties: map<string, TopicConfigurationProperty>
    var warnings: seq<string>

    constructor (definitions: seq<HandlerDefinition>, properties: map<string, TopicConfigurationProperty>,
                 client: ExternalTaskClient)
      requires forall d <- definitions :: Registrable(d)
      modifies client
      ensures this.client == client && this.properties == properties
      ensures client.calls == old(client.calls) + RegistrationCalls(definitions, PropertyValues(properties))
      ensures warnings == Warnings(definitions)
    {
      this.client := client;
      this.properties := properties;
      warnings := [];
      new;
      ghost var values := PropertyValues(properties);
      var i := 0;
      while i < |definitions|
        invariant 0 <= i <= |definitions|
        invariant unchanged(properties.Values)
        invariant client.calls == old(client.calls) + RegistrationCalls(definitions[..i], values)
        invariant warnings == Warnings(definitions[..i])
      {
        assert definitions[i] in definitions;
        ghost var registered := client.calls;
        RegisterExternalTaskHandler(definitions[i]);
        RegistrationStep(definitions, i, values, old(client.calls), registered, client.calls);
        WarningsStep(definitions, i);
        i := i + 1;
      }
      assert definitions[..i] == definitions;
    }

    /** `registerExternalTaskHandler`: skip with a warning, or subscribe, override from the bean, open. */
    method RegisterExternalTaskHandler(d: HandlerDefinition)
      requires Registrable(d)
      modifies this`warnings, client
      ensures client.calls == old(client.calls) + HandlerCalls(d, old(PropertyValues(properties)))
      ensures warnings == old(warnings) + if d.annotation.None? then [d.name] else []
    {
      if d.annotation.None? {
        warnings := warnings + [d.name];
      } else {
        ghost var values, issued := PropertyValues(properties), client.calls;
        var a := d.annotation.value;
        var builder := BuildTopicSubscription(d.handler, client, a);
        ghost var built := client.calls;
        var topicName := a.topicName.value;
        if topicName in properties {
          assert values[topicName] == properties[topicName].Value();
          OverrideAnnotationWithConfigurationProperties(properties[topicName], builder);
        }
        ghost var overridden := client.calls;
        builder.Open();
        HandlerTrace(d, values, issued, built, overridden, client.calls);
      }
    }
  }
}
