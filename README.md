# Micronaut Camunda external-task subscriptions, modelled in Dafny

This project models how the Micronaut integration for the Camunda external-task
client turns handler beans into topic subscriptions. Each handler class carries
an `@ExternalTaskSubscription` annotation with compile-time defaults. An
optional `TopicConfigurationProperty` bean, bound under a topic name, can
override them. There are two independent implementations of that overlay, and
the model keeps them apart.

- **Builder path** (`ExternalWorkerSubscriptionCreator`, run at startup). The
  constructor visits the handler definitions in order and skips those without
  the annotation, each with a warning. For an annotated handler it calls
  `subscribe(topicName)` and `handler(...)`. It then forwards the annotation's
  attributes under sentinel rules:
  - an array attribute is dropped when its element 0 is `""`;
  - `withoutTenantId()` is called only for `true`.

  When a property bean is bound under the same topic name, every non-null field
  of the bean except topicName is issued again on the builder. The two flags in the bean are
  issued only when true, and `variables` is issued twice, as written. Finally
  `open()` is called.

  The Camunda client is a recorder: `ExternalTaskClient.calls` is the trace of
  every call issued. `Replay` gives the settings a trace leaves behind under
  "the last setter call wins".
- **Record path** (`TopicConfiguration`, `TopicConfigurationMapper`,
  `TopicConfigurationProperty`). This is a mutable record with an in-place
  merge `overrideIfExists`, plus two mappers that fill a new record from a
  property bean or from an annotation.

  The merge is modelled statement by statement, including the
  `NullPointerException` thrown where a `Boolean`/`boolean` conditional unboxes
  a null field (section 15.25 of the Java Language Specification). When it
  throws, the partly merged record is kept. The merge also copies
  processDefinitionKey from processDefinitionId, as written.

Both paths share one value type, `Topics.TopicFields`: thirteen `Option`
settings, where `None` stands for Java `null`. A Java `String[]` is an
`Option<seq<string>>` and a `Long` is an `Option<int>`.

Files:
- `wrappers.dfy` holds `Option`.
- `topics.dfy` holds the settings and the sentinel predicates.
- `topic_configuration_property.dfy` holds the bean.
- `topic_configuration.dfy` holds the record and the merge, as written and as intended.
- `topic_configuration_mapper.dfy` holds both mapper overloads.
- `subscription_creator.dfy` holds the call trace, the recorder client and builder, and the creator.

## Model

| member | source | states |
|---|---|---|
| TopicConfigurationProperties.TopicConfigurationProperty.constructor | micronaut-camunda-external-client-feature/src/main/java/info/novatec/micronaut/camunda/external/client/feature/TopicConfigurationProperty.java:42-44 | the bean holds the given topicName and every other field is null |
| TopicConfigurationProperties.TopicConfigurationProperty.SetWithoutTenantId | micronaut-camunda-external-client-feature/src/main/java/info/novatec/micronaut/camunda/external/client/feature/TopicConfigurationProperty.java:126-132 | the setter stores the value, null included, and may change only its own field (the other twelve setters likewise); the getter is the field itself, so a null Boolean reads as null |
| TopicConfigurations.Override | micronaut-camunda-external-client-feature/src/main/java/info/novatec/micronaut/camunda/external/client/feature/TopicConfiguration.java:38-52 | the merge throws exactly when a flag statement picks a null own field whose override is not true. topicName, lockDuration and variables are merged non-null-wins before that point, and a throw leaves the later fields untouched. On completion every reference field is non-null-wins, a flag is only raised to true, and processDefinitionKey follows processDefinitionId |
| TopicConfigurations.OverrideIdempotent | micronaut-camunda-external-client-feature/src/main/java/info/novatec/micronaut/camunda/external/client/feature/TopicConfiguration.java:38-52 | if a first application completes, applying the same override again gives the same record and outcome |
| TopicConfigurations.OverrideAgreesWithIntended | micronaut-camunda-external-client-feature/src/main/java/info/novatec/micronaut/camunda/external/client/feature/TopicConfiguration.java:38-52 | where the written merge completes, it equals the intended merge except in processDefinitionKey |
| TopicConfigurations.OverrideDropsProcessDefinitionKey | micronaut-camunda-external-client-feature/src/main/java/info/novatec/micronaut/camunda/external/client/feature/TopicConfiguration.java:46 | a concrete merge, with the record's three flags set (to false) so that it completes, where the override's processDefinitionKey is ignored and the record's own key is cleared |
| TopicConfigurations.OverrideOfUnsetRecordThrows | micronaut-camunda-external-client-feature/src/main/java/info/novatec/micronaut/camunda/external/client/feature/TopicConfiguration.java:42 | merging an empty override onto a fresh record throws a NullPointerException at the localVariables statement and changes nothing |
| TopicConfigurations.OverrideIntended | micronaut-camunda-external-client-feature/src/main/java/info/novatec/micronaut/camunda/external/client/feature/TopicConfiguration.java:38-52 | the intended merge: processDefinitionKey is the override's key when it sets one and the record's own key otherwise; a flag the override does not set to true keeps the record's own value, null included, so nothing is unboxed; an override flag of true raises the flag |
| TopicConfigurations.OverrideIntendedIdempotent | micronaut-camunda-external-client-feature/src/main/java/info/novatec/micronaut/camunda/external/client/feature/TopicConfiguration.java:38-52 | the intended merge is idempotent on every input |
| TopicConfigurations.OverrideIntendedAssociative | micronaut-camunda-external-client-feature/src/main/java/info/novatec/micronaut/camunda/external/client/feature/TopicConfiguration.java:38-52 | merging two overrides in turn equals merging once with the second laid over the first: the last non-null value wins and a raised flag stays raised |
| TopicConfigurations.OverrideIntendedIdentity | micronaut-camunda-external-client-feature/src/main/java/info/novatec/micronaut/camunda/external/client/feature/TopicConfiguration.java:38-52 | an override that sets nothing leaves the record unchanged under the intended merge |
| TopicConfigurations.TopicConfiguration.constructor | micronaut-camunda-external-client-feature/src/main/java/info/novatec/micronaut/camunda/external/client/feature/TopicConfiguration.java:35-36 | a new record has every field null |
| TopicConfigurations.TopicConfiguration.IsLocalVariables | micronaut-camunda-external-client-feature/src/main/java/info/novatec/micronaut/camunda/external/client/feature/TopicConfiguration.java:78-80 | true exactly when the field holds true; null reads as false |
| TopicConfigurations.TopicConfiguration.IsWithoutTenantId | micronaut-camunda-external-client-feature/src/main/java/info/novatec/micronaut/camunda/external/client/feature/TopicConfiguration.java:134-136 | true exactly when the field holds true; null reads as false |
| TopicConfigurations.TopicConfiguration.HasIncludeExtensionProperties | micronaut-camunda-external-client-feature/src/main/java/info/novatec/micronaut/camunda/external/client/feature/TopicConfiguration.java:150-152 | true exactly when the field holds true; null reads as false |
| TopicConfigurations.TopicConfiguration.OverrideIfExists | micronaut-camunda-external-client-feature/src/main/java/info/novatec/micronaut/camunda/external/client/feature/TopicConfiguration.java:38-52 | the in-place merge leaves `this` holding the record `Override` describes and reports its outcome. It modifies only `this` and only reads the overriding record |
| TopicConfigurations.TopicConfiguration.SetLocalVariables | micronaut-camunda-external-client-feature/src/main/java/info/novatec/micronaut/camunda/external/client/feature/TopicConfiguration.java:82-84 | a primitive setter stores a non-null value and changes no other field (the other setters likewise) |
| TopicConfigurationMappers.FromProperty | micronaut-camunda-external-client-feature/src/main/java/info/novatec/micronaut/camunda/external/client/feature/TopicConfigurationMapper.java:28-43 | ten fields are copied verbatim, nulls included, with no sentinel check. localVariables is always null. withoutTenantId and includeExtensionProperties are always non-null: true exactly when the bean says true |
| TopicConfigurationMappers.MapPropertyToTopicConfiguration | micronaut-camunda-external-client-feature/src/main/java/info/novatec/micronaut/camunda/external/client/feature/TopicConfigurationMapper.java:28-43 | allocates a new record holding `FromProperty` of the bean |
| TopicConfigurationMappers.FromAnnotation | micronaut-camunda-external-client-feature/src/main/java/info/novatec/micronaut/camunda/external/client/feature/TopicConfigurationMapper.java:45-95 | an array is recorded exactly when it is present with element 0 not `""`, and then unchanged. withoutTenantId is recorded exactly when it is true, and never as false. Every other present attribute is copied, false included, and an absent one stays null |
| TopicConfigurationMappers.MapAnnotationToTopicConfiguration | micronaut-camunda-external-client-feature/src/main/java/info/novatec/micronaut/camunda/external/client/feature/TopicConfigurationMapper.java:45-95 | allocates a new record holding `FromAnnotation` of the annotation |
| ExternalWorkerSubscriptions.AnnotationCalls | micronaut-camunda-external-client-feature/src/main/java/info/novatec/micronaut/camunda/external/client/feature/ExternalWorkerSubscriptionCreator.java:79-121 | the attribute statements of `buildTopicSubscription` issue only setter calls |
| ExternalWorkerSubscriptions.PropertyCalls | micronaut-camunda-external-client-feature/src/main/java/info/novatec/micronaut/camunda/external/client/feature/ExternalWorkerSubscriptionCreator.java:129-179 | the override statements issue only setter calls |
| ExternalWorkerSubscriptions.AnnotationCallsMatchMapper | micronaut-camunda-external-client-feature/src/main/java/info/novatec/micronaut/camunda/external/client/feature/ExternalWorkerSubscriptionCreator.java:73-124 | `subscribe`, `handler` and the forwarded attributes leave the builder holding exactly the record the annotation mapper produces, so the two set/skip rules agree |
| ExternalWorkerSubscriptions.ReplayAnnotationTenantCalls | micronaut-camunda-external-client-feature/src/main/java/info/novatec/micronaut/camunda/external/client/feature/ExternalWorkerSubscriptionCreator.java:109-121 | `withoutTenantId()` changes the builder only for an annotation value of true. tenantIdIn changes it only when forwarded. A present includeExtensionProperties is forwarded, false included |
| ExternalWorkerSubscriptions.ReplayAnnotationFetchCalls | micronaut-camunda-external-client-feature/src/main/java/info/novatec/micronaut/camunda/external/client/feature/ExternalWorkerSubscriptionCreator.java:79-87 | present scalars are forwarded as they are, and variables only when element 0 is not `""` |
| ExternalWorkerSubscriptions.ReplayPropertyFetchCalls | micronaut-camunda-external-client-feature/src/main/java/info/novatec/micronaut/camunda/external/client/feature/ExternalWorkerSubscriptionCreator.java:129-143 | each non-null field replaces the builder's value, a localVariables of false included. The duplicated variables statement leaves the same state as one application |
| ExternalWorkerSubscriptions.ReplayPropertyTenantCalls | micronaut-camunda-external-client-feature/src/main/java/info/novatec/micronaut/camunda/external/client/feature/ExternalWorkerSubscriptionCreator.java:169-179 | the two flags change the builder only when the bean holds true, so a false or null never undoes a true. tenantIdIn replaces the builder's value with no sentinel check |
| ExternalWorkerSubscriptions.ReplayPropertyCalls | micronaut-camunda-external-client-feature/src/main/java/info/novatec/micronaut/camunda/external/client/feature/ExternalWorkerSubscriptionCreator.java:126-180 | the override step leaves the builder at `Overlay`: non-null bean fields win, null ones keep the annotation's value, and topicName is untouched |
| ExternalWorkerSubscriptions.Overlay | micronaut-camunda-external-client-feature/src/main/java/info/novatec/micronaut/camunda/external/client/feature/ExternalWorkerSubscriptionCreator.java:126-180 | the override never changes topicName; for the ten other non-flag fields, localVariables included, a non-null bean value wins and a null one keeps the annotation's value; a flag is raised by a bean value of true, is never cleared once true, and is left as it was otherwise |
| ExternalWorkerSubscriptions.HandlerSettings | micronaut-camunda-external-client-feature/src/main/java/info/novatec/micronaut/camunda/external/client/feature/ExternalWorkerSubscriptionCreator.java:58-68 | an annotated handler's subscription ends with the annotation's settings overlaid by the bean bound under its topic name if there is one, and the annotation's settings alone otherwise |
| ExternalWorkerSubscriptions.HandlerCallsShape | micronaut-camunda-external-client-feature/src/main/java/info/novatec/micronaut/camunda/external/client/feature/ExternalWorkerSubscriptionCreator.java:58-77 | an annotated handler's calls start with `subscribe(topicName)` and `handler(...)` and end with `open()`, with only setter calls between |
| ExternalWorkerSubscriptions.HandlerCounts | micronaut-camunda-external-client-feature/src/main/java/info/novatec/micronaut/camunda/external/client/feature/ExternalWorkerSubscriptionCreator.java:55-68 | an annotated handler subscribes to its topic once and opens once; an unannotated one neither subscribes nor opens |
| ExternalWorkerSubscriptions.RegistrationSubscribesDeclaredTopics | micronaut-camunda-external-client-feature/src/main/java/info/novatec/micronaut/camunda/external/client/feature/ExternalWorkerSubscriptionCreator.java:48 | the constructor's pass subscribes to the declared topics in definition order, one per annotated definition, and issues exactly that many `open()` calls |
| ExternalWorkerSubscriptions.EveryDefinitionAccounted | micronaut-camunda-external-client-feature/src/main/java/info/novatec/micronaut/camunda/external/client/feature/ExternalWorkerSubscriptionCreator.java:48-56 | the number of subscribed topics plus the number of warnings is the number of definitions, so each definition yields one of the two |
| ExternalWorkerSubscriptions.BuilderPathMatchesRecordPath | micronaut-camunda-external-client-feature/src/main/java/info/novatec/micronaut/camunda/external/client/feature/TopicConfigurationMapper.java:28-43 | the property mapper followed by the intended merge agrees with the builder's override step on every setting except localVariables, which the mapper never copies, provided the bean's topicName is null or the topic it is bound under |
| ExternalWorkerSubscriptions.BuildTopicSubscription | micronaut-camunda-external-client-feature/src/main/java/info/novatec/micronaut/camunda/external/client/feature/ExternalWorkerSubscriptionCreator.java:73-124 | returns a new builder on the given client whose trace has grown by `subscribe`, `handler` and the annotation's forwarded attributes |
| ExternalWorkerSubscriptions.OverrideAnnotationWithConfigurationProperties | micronaut-camunda-external-client-feature/src/main/java/info/novatec/micronaut/camunda/external/client/feature/ExternalWorkerSubscriptionCreator.java:126-180 | the trace grows by one setter call per non-null bean field, in source order, and the flags only when true |
| ExternalWorkerSubscriptions.ExternalWorkerSubscriptionCreator.RegisterExternalTaskHandler | micronaut-camunda-external-client-feature/src/main/java/info/novatec/micronaut/camunda/external/client/feature/ExternalWorkerSubscriptionCreator.java:51-71 | an unannotated definition adds a warning with its name and no call. An annotated one issues its build, then the override step exactly when a bean is bound under its topic name, then `open()` |
| ExternalWorkerSubscriptions.ExternalWorkerSubscriptionCreator.constructor | micronaut-camunda-external-client-feature/src/main/java/info/novatec/micronaut/camunda/external/client/feature/ExternalWorkerSubscriptionCreator.java:43-49 | visits every definition in order. The client's trace is the concatenation of the definitions' traces, and the warnings are the unannotated definitions' names in order |

## Left out

- Micronaut dependency injection is not modelled: bean lookup, `containsBean`, `Qualifiers.byName`, `@Context` and `@EachProperty`. The definitions are a sequence of handler definitions, each with an optional annotation record. The property beans are a map keyed by the name they are bound under.
- `getBean(beanDefinition)` is replaced by a handler token carried in each definition. The handler is never executed.
- What `open()` does on the network is not modelled: long polling, locking, fetching and completing. Neither are the internals of the Camunda client and builder beyond recording calls.
- The `log.info` lines are left out. The `log.warn` for a skipped handler is kept as the constructor's `warnings` list.
- `AnnotationValue` reflection is replaced by a record of optional attribute values.
- Java `Long` overflow is not modelled: lock durations are unbounded integers.
- Array aliasing is not modelled: arrays are stored by reference in Java and are values here.
- The self-referential constructor and field of `TopicConfigurationMapper` are omitted; they have no behaviour.
- TopicConfigurationMappers.FromProperty: the accessors it calls on the bean, `isWithoutTenantId()` and `hasIncludeExtensionProperties()`, do not exist on `TopicConfigurationProperty`, which offers `getWithoutTenantId()` and `getIncludeExtensionProperties()`. They are modelled as reading null as false.
- An empty annotation array, which makes `it[0]` throw, is a precondition (`ArraysIndexable`) rather than a modelled exception. The same holds for a missing annotation topicName, which makes `Optional.get()` throw.
- ExternalWorkerSubscriptions.OverrideAnnotationWithConfigurationProperties reads the bean's fields once, through `Value()`, rather than once per getter call. Nothing changes the bean in between, so this makes no difference.
- ExternalWorkerSubscriptions.ExternalWorkerSubscriptionCreator.RegisterExternalTaskHandler states its trace against the bean values as they were on entry. The override step only reads the beans.
- `buildTopicSubscription` and the override step are split into four helper methods each, one per group of three or four statements, to keep each proof small. Together the helpers issue the same calls in the same order.

## Findings

| source | as written | input that shows it | evidently intended | confidence | as-written member | corrected member |
|---|---|---|---|---|---|---|
| micronaut-camunda-external-client-feature/src/main/java/info/novatec/micronaut/camunda/external/client/feature/TopicConfiguration.java:46 | processDefinitionKey is assigned from the override's or the record's processDefinitionId | a record with processDefinitionKey "invoice", no processDefinitionId, and localVariables, withoutTenantId and includeExtensionProperties set (e.g. false), merged with an override whose processDefinitionKey is "payment": the key becomes null | the override's processDefinitionKey wins when set, else the record keeps its own | high (not executed) | TopicConfigurations.OverrideDropsProcessDefinitionKey | TopicConfigurations.OverrideIntended |
| micronaut-camunda-external-client-feature/src/main/java/info/novatec/micronaut/camunda/external/client/feature/TopicConfiguration.java:42 | `!overriding.isLocalVariables() ? this.localVariables : ...` has type boolean and unboxes a null `localVariables` (lines 49 and 51 do the same for the other two flags) | a fresh record merged with an override that sets nothing throws NullPointerException | a null flag stays null unless the override says true | high (not executed) | TopicConfigurations.OverrideOfUnsetRecordThrows | TopicConfigurations.OverrideIntended |
