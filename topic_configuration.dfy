/**
 * `TopicConfiguration`: the mutable topic record of the record path and its
 * in-place merge `overrideIfExists`.
 *
 * The merge reassigns the thirteen fields one statement at a time. Three of
 * the statements are conditionals whose operands are a `Boolean` field and a
 * `boolean` getter result; such a conditional has type `boolean` (section
 * 15.25 of the Java Language Specification), so choosing a null `Boolean`
 * field unboxes it and throws a NullPointerException. The statements before
 * the throwing one have already taken effect, so the record is left partly
 * merged; `Override` returns that partial record together with the outcome.
 */
module TopicConfigurations {
  import opened Wrappers
  import opened Topics

  datatype Completion = Normal | ThrowsNullPointer

  /** The record after `overrideIfExists` ran, and how it ended. */
  datatype Merged = Merged(record: TopicFields, completion: Completion)

  /**
   * A flag statement of the merge unboxes null: the overriding getter (null read
   * as false) is false, so the conditional chooses the own field, which is null.
   */
  predicate UnboxesNull(own: Option<bool>, overriding: Option<bool>) {
    !overriding.GetOr(false) && own.None?
  }

  /** A flag statement of the merge that does not throw: true if the override says true, else the own value. */
  function RaiseFlag(own: Option<bool>, overriding: Option<bool>): Option<bool>
    requires !UnboxesNull(own, overriding)
  {
    if !overriding.GetOr(false) then own else Some(overriding.GetOr(false))
  }

  /**
   * `overrideIfExists` as written, statement by statement, on values: the
   * record it leaves behind and whether it threw. Note that
   * processDefinitionKey is assigned from processDefinitionId.
   */
  function Override(base: TopicFields, over: TopicFields): (m: Merged)
    // the three unboxing statements are the only way the merge can fail
    ensures m.completion == ThrowsNullPointer <==>
      (over.localVariables != Some(true) && base.localVariables == None) ||
      (over.withoutTenantId != Some(true) && base.withoutTenantId == None) ||
      (over.includeExtensionProperties != Some(true) && base.includeExtensionProperties == None)
    // the first three statements run before any of them
    ensures m.record.topicName == Pick(over.topicName, base.topicName)
    ensures m.record.lockDuration == Pick(over.lockDuration, base.lockDuration)
    ensures m.record.variables == Pick(over.variables, base.variables)
    // a throw at the localVariables statement leaves everything after it untouched
    ensures over.localVariables != Some(true) && base.localVariables == None ==>
      m.completion == ThrowsNullPointer &&
      m.record == base.(topicName := m.record.topicName, lockDuration := m.record.lockDuration,
                        variables := m.record.variables)
    // the last statement never runs when the merge throws
    ensures m.completion == ThrowsNullPointer ==>
      m.record.includeExtensionProperties == base.includeExtensionProperties
    // a completed merge: non-null wins for every reference field, a flag is only raised to true,
    // and processDefinitionKey follows the override's processDefinitionId
    ensures m.completion == Normal ==>
      m.record.businessKey == Pick(over.businessKey, base.businessKey) &&
      m.record.processDefinitionId == Pick(over.processDefinitionId, base.processDefinitionId) &&
      m.record.processDefinitionIdIn == Pick(over.processDefinitionIdIn, base.processDefinitionIdIn) &&
      m.record.processDefinitionKey == Pick(over.processDefinitionId, base.processDefinitionId) &&
      m.record.processDefinitionKeyIn == Pick(over.processDefinitionKeyIn, base.processDefinitionKeyIn) &&
      m.record.processDefinitionVersionTag == Pick(over.processDefinitionVersionTag, base.processDefinitionVersionTag) &&
      m.record.tenantIdIn == Pick(over.tenantIdIn, base.tenantIdIn) &&
      m.record.localVariables == (if over.localVariables == Some(true) then Some(true) else base.localVariables) &&
      m.record.withoutTenantId == (if over.withoutTenantId == Some(true) then Some(true) else base.withoutTenantId) &&
      m.record.includeExtensionProperties ==
        (if over.includeExtensionProperties == Some(true) then Some(true) else base.includeExtensionProperties)
  {
    var head := MergeHead(base, over);
    if UnboxesNull(head.localVariables, over.localVariables) then Merged(head, ThrowsNullPointer) else
    var middle := MergeMiddle(head, over);
    if UnboxesNull(middle.withoutTenantId, over.withoutTenantId) then Merged(middle, ThrowsNullPointer) else
    var tail := MergeTail(middle, over);
    if UnboxesNull(tail.includeExtensionProperties, over.includeExtensionProperties) then Merged(tail, ThrowsNullPointer) else
    Merged(tail.(includeExtensionProperties :=
      RaiseFlag(tail.includeExtensionProperties, over.includeExtensionProperties)), Normal)
  }

  /** The statements for topicName, lockDuration and variables. */
  function MergeHead(r: TopicFields, over: TopicFields): TopicFields {
    r.(topicName := Pick(over.topicName, r.topicName),
       lockDuration := Pick(over.lockDuration, r.lockDuration),
       variables := Pick(over.variables, r.variables))
  }

  /**
   * The statements from localVariables to processDefinitionVersionTag; the
   * processDefinitionKey statement reads processDefinitionId after it was merged.
   */
  function MergeMiddle(r: TopicFields, over: TopicFields): TopicFields
    requires !UnboxesNull(r.localVariables, over.localVariables)
  {
    var id := Pick(over.processDefinitionId, r.processDefinitionId);
    r.(localVariables := RaiseFlag(r.localVariables, over.localVariables),
       businessKey := Pick(over.businessKey, r.businessKey),
       processDefinitionId := id,
       processDefinitionIdIn := Pick(over.processDefinitionIdIn, r.processDefinitionIdIn),
       processDefinitionKey := Pick(over.processDefinitionId, id),
       processDefinitionKeyIn := Pick(over.processDefinitionKeyIn, r.processDefinitionKeyIn),
       processDefinitionVersionTag := Pick(over.processDefinitionVersionTag, r.processDefinitionVersionTag))
  }

  /** The statements for withoutTenantId and tenantIdIn. */
  function MergeTail(r: TopicFields, over: TopicFields): TopicFields
    requires !UnboxesNull(r.withoutTenantId, over.withoutTenantId)
  {
    r.(withoutTenantId := RaiseFlag(r.withoutTenantId, over.withoutTenantId),
       tenantIdIn := Pick(over.tenantIdIn, r.tenantIdIn))
  }

  /** Applying an override a second time, after a first application that completed, changes nothing. */
  lemma OverrideIdempotent(base: TopicFields, over: TopicFields)
    requires Override(base, over).completion == Normal
    ensures Override(Override(base, over).record, over) == Override(base, over)
  {
  }

  /** Concrete input: the override's processDefinitionKey is ignored and the record's own key is replaced. */
  lemma OverrideDropsProcessDefinitionKey()
    ensures var base := Unset.(processDefinitionKey := Some("invoice"), localVariables := Some(false),
                               withoutTenantId := Some(false), includeExtensionProperties := Some(false));
            var over := Unset.(processDefinitionKey := Some("payment"));
            Override(base, over) == Merged(base.(processDefinitionKey := None), Normal)
  {
  }

  /** Concrete input: merging an override that sets nothing onto a fresh record throws. */
  lemma OverrideOfUnsetRecordThrows()
    ensures Override(Unset, Unset) == Merged(Unset, ThrowsNullPointer)
  {
  }

  /**
   * The merge as evidently intended: the override's processDefinitionKey wins
   * when it is set, and an unset own flag stays unset instead of being unboxed.
   */
  function OverrideIntended(base: TopicFields, over: TopicFields): (r: TopicFields)
    // processDefinitionKey follows the override's key when it sets one, and otherwise stays the record's own
    ensures over.processDefinitionKey.Some? ==> r.processDefinitionKey == over.processDefinitionKey
    ensures over.processDefinitionKey.None? ==> r.processDefinitionKey == base.processDefinitionKey
    // an override flag that is not true leaves the record's own flag as it is, null included, so nothing is unboxed
    ensures over.localVariables != Some(true) ==> r.localVariables == base.localVariables
    ensures over.withoutTenantId != Some(true) ==> r.withoutTenantId == base.withoutTenantId
    ensures over.includeExtensionProperties != Some(true) ==> r.includeExtensionProperties == base.includeExtensionProperties
    // an override flag of true raises the record's flag
    ensures over.localVariables == Some(true) ==> r.localVariables == Some(true)
    ensures over.withoutTenantId == Some(true) ==> r.withoutTenantId == Some(true)
    ensures over.includeExtensionProperties == Some(true) ==> r.includeExtensionProperties == Some(true)
  {
    TopicFields(
      Pick(over.topicName, base.topicName),
      Pick(over.lockDuration, base.lockDuration),
      Pick(over.variables, base.variables),
      if over.localVariables.GetOr(false) then Some(true) else base.localVariables,
      Pick(over.businessKey, base.businessKey),
      Pick(over.processDefinitionId, base.processDefinitionId),
      Pick(over.processDefinitionIdIn, base.processDefinitionIdIn),
      Pick(over.processDefinitionKey, base.processDefinitionKey),
      Pick(over.processDefinitionKeyIn, base.processDefinitionKeyIn),
      Pick(over.processDefinitionVersionTag, base.processDefinitionVersionTag),
      if over.withoutTenantId.GetOr(false) then Some(true) else base.withoutTenantId,
      Pick(over.tenantIdIn, base.tenantIdIn),
      if over.includeExtensionProperties.GetOr(false) then Some(true) else base.includeExtensionProperties)
  }

  /** The intended merge is idempotent on every input; nothing can throw. */
  lemma OverrideIntendedIdempotent(base: TopicFields, over: TopicFields)
    ensures OverrideIntended(OverrideIntended(base, over), over) == OverrideIntended(base, over)
  {
  }

  /**
   * Merging two overrides one after the other is merging the first with the
   * second laid over it: the last non-null value wins and a raised flag stays raised.
   */
  lemma OverrideIntendedAssociative(base: TopicFields, first: TopicFields, second: TopicFields)
    ensures OverrideIntended(OverrideIntended(base, first), second) ==
            OverrideIntended(base, OverrideIntended(first, second))
  {
  }

  /** An override that sets nothing leaves the record unchanged under the intended merge. */
  lemma OverrideIntendedIdentity(base: TopicFields)
    ensures OverrideIntended(base, Unset) == base
  {
  }

  /** Where the written merge completes, it differs from the intended one only in processDefinitionKey. */
  lemma OverrideAgreesWithIntended(base: TopicFields, over: TopicFields)
    requires Override(base, over).completion == Normal
    ensures Override(base, over).record ==
      OverrideIntended(base, over).(processDefinitionKey := Pick(over.processDefinitionId, base.processDefinitionId))
  {
  }

  class TopicConfiguration {
    var topicName: Option<string>
    var lockDuration: Option<int>
    var variables: Option<seq<string>>
    var localVariables: Option<bool>
    var businessKey: Option<string>
    var processDefinitionId: Option<string>
    var processDefinitionIdIn: Option<seq<string>>
    var processDefinitionKey: Option<string>
    var processDefinitionKeyIn: Option<seq<string>>
    var processDefinitionVersionTag: Option<string>
    var withoutTenantId: Option<bool>
    var tenantIdIn: Option<seq<string>>
    var includeExtensionProperties: Option<bool>

    /** All thirteen fields as stored (the flags without their false default). */
    function Value(): TopicFields
      reads this
    {
      TopicFields(topicName, lockDuration, variables, localVariables, businessKey,
                  processDefinitionId, processDefinitionIdIn, processDefinitionKey,
                  processDefinitionKeyIn, processDefinitionVersionTag, withoutTenantId,
                  tenantIdIn, includeExtensionProperties)
    }

    /** A fresh record: every field null. */
    constructor ()
      ensures Value() == Unset
    {
      topicName := None;
      lockDuration := None;
      variables := None;
      localVariables := None;
      businessKey := None;
      processDefinitionId := None;
      processDefinitionIdIn := None;
      processDefinitionKey := None;
      processDefinitionKeyIn := None;
      processDefinitionVersionTag := None;
      withoutTenantId := None;
      tenantIdIn := None;
      includeExtensionProperties := None;
    }

    /** `isLocalVariables`: true exactly when the field holds true; a null field reads as false. */
    function IsLocalVariables(): (b: bool)
      reads this
      ensures b <==> localVariables == Some(true)
    {
      localVariables.GetOr(false)
    }

    /** `isWithoutTenantId`: true exactly when the field holds true; a null field reads as false. */
    function IsWithoutTenantId(): (b: bool)
      reads this
      ensures b <==> withoutTenantId == Some(true)
    {
      withoutTenantId.GetOr(false)
    }

    /** `hasIncludeExtensionProperties`: true exactly when the field holds true; a null field reads as false. */
    function HasIncludeExtensionProperties(): (b: bool)
      reads this
      ensures b <==> includeExtensionProperties == Some(true)
    {
      includeExtensionProperties.GetOr(false)
    }

    /**
     * `overrideIfExists`: merges `overriding` into this record in place, one
     * field per statement; only this record is written and `overriding` is only
     * read (it may be this record itself). A flag statement that would unbox a
     * null field ends the merge with a NullPointerException.
     */
    method OverrideIfExists(overriding: TopicConfiguration) returns (completion: Completion)
      modifies this
      ensures Value() == Override(old(Value()), old(overriding.Value())).record
      ensures completion == Override(old(Value()), old(overriding.Value())).completion
    {
      OverrideHead(overriding);
      if !overriding.IsLocalVariables() && localVariables.None? {
        return ThrowsNullPointer;
      }
      OverrideMiddle(overriding);
      if !overriding.IsWithoutTenantId() && withoutTenantId.None? {
        return ThrowsNullPointer;
      }
      OverrideTail(overriding);
      if !overriding.HasIncludeExtensionProperties() && includeExtensionProperties.None? {
        return ThrowsNullPointer;
      }
      includeExtensionProperties := RaiseFlag(includeExtensionProperties, overriding.includeExtensionProperties);
      completion := Normal;
    }

    /** The merge statements for topicName, lockDuration and variables. */
    method OverrideHead(overriding: TopicConfiguration)
      modifies this
      ensures Value() == MergeHead(old(Value()), old(overriding.Value()))
    {
      topicName := Pick(overriding.topicName, topicName);
      lockDuration := Pick(overriding.lockDuration, lockDuration);
      variables := Pick(overriding.variables, variables);
    }

    /**
     * The merge statements from localVariables to processDefinitionVersionTag;
     * processDefinitionKey is assigned from processDefinitionId.
     */
    method OverrideMiddle(overriding: TopicConfiguration)
      requires !UnboxesNull(localVariables, overriding.localVariables)
      modifies this
      ensures Value() == MergeMiddle(old(Value()), old(overriding.Value()))
    {
      localVariables := RaiseFlag(localVariables, overriding.localVariables);
      businessKey := Pick(overriding.businessKey, businessKey);
      processDefinitionId := Pick(overriding.processDefinitionId, processDefinitionId);
      processDefinitionIdIn := Pick(overriding.processDefinitionIdIn, processDefinitionIdIn);
      processDefinitionKey := Pick(overriding.processDefinitionId, processDefinitionId);
      processDefinitionKeyIn := Pick(overriding.processDefinitionKeyIn, processDefinitionKeyIn);
      processDefinitionVersionTag := Pick(overriding.processDefinitionVersionTag, processDefinitionVersionTag);
    }

    /** The merge statements for withoutTenantId and tenantIdIn. */
    method OverrideTail(overriding: TopicConfiguration)
      requires !UnboxesNull(withoutTenantId, overriding.withoutTenantId)
      modifies this
      ensures Value() == MergeTail(old(Value()), old(overriding.Value()))
    {
      withoutTenantId := RaiseFlag(withoutTenantId, overriding.withoutTenantId);
      tenantIdIn := Pick(overriding.tenantIdIn, tenantIdIn);
    }

    method SetTopicName(v: Option<string>)
      modifies this`topicName
      ensures topicName == v
      ensures Value() == old(Value()).(topicName := v)
    {
      topicName := v;
    }

    method SetLockDuration(v: Option<int>)
      modifies this`lockDuration
      ensures lockDuration == v
      ensures Value() == old(Value()).(lockDuration := v)
    {
      lockDuration := v;
    }

    method SetVariables(v: Option<seq<string>>)
      modifies this`variables
      ensures variables == v
      ensures Value() == old(Value()).(variables := v)
    {
      variables := v;
    }

    /** Takes a primitive boolean, so the field is never null afterwards. */
    method SetLocalVariables(b: bool)
      modifies this`localVariables
      ensures localVariables == Some(b)
      ensures Value() == old(Value()).(localVariables := Some(b))
    {
      localVariables := Some(b);
    }

    method SetBusinessKey(v: Option<string>)
      modifies this`businessKey
      ensures businessKey == v
      ensures Value() == old(Value()).(businessKey := v)
    {
      businessKey := v;
    }

    method SetProcessDefinitionId(v: Option<string>)
      modifies this`processDefinitionId
      ensures processDefinitionId == v
      ensures Value() == old(Value()).(processDefinitionId := v)
    {
      processDefinitionId := v;
    }

    method SetProcessDefinitionIdIn(v: Option<seq<string>>)
      modifies this`processDefinitionIdIn
      ensures processDefinitionIdIn == v
      ensures Value() == old(Value()).(processDefinitionIdIn := v)
    {
      processDefinitionIdIn := v;
    }

    method SetProcessDefinitionKey(v: Option<string>)
      modifies this`processDefinitionKey
      ensures processDefinitionKey == v
      ensures Value() == old(Value()).(processDefinitionKey := v)
    {
      processDefinitionKey := v;
    }

    method SetProcessDefinitionKeyIn(v: Option<seq<string>>)
      modifies this`processDefinitionKeyIn
      ensures processDefinitionKeyIn == v
      ensures Value() == old(Value()).(processDefinitionKeyIn := v)
    {
      processDefinitionKeyIn := v;
    }

    method SetProcessDefinitionVersionTag(v: Option<string>)
      modifies this`processDefinitionVersionTag
      ensures processDefinitionVersionTag == v
      ensures Value() == old(Value()).(processDefinitionVersionTag := v)
    {
      processDefinitionVersionTag := v;
    }

    /** Takes a primitive boolean, so the field is never null afterwards. */
    method SetWithoutTenantId(b: bool)
      modifies this`withoutTenantId
      ensures withoutTenantId == Some(b)
      ensures Value() == old(Value()).(withoutTenantId := Some(b))
    {
      withoutTenantId := Some(b);
    }

    method SetTenantIdIn(v: Option<seq<string>>)
      modifies this`tenantIdIn
      ensures tenantIdIn == v
      ensures Value() == old(Value()).(tenantIdIn := v)
    {
      tenantIdIn := v;
    }

    /** Takes a primitive boolean, so the field is never null afterwards. */
    method SetIncludeExtensionProperties(b: bool)
      modifies this`includeExtensionProperties
      ensures includeExtensionProperties == Some(b)
      ensures Value() == old(Value()).(includeExtensionProperties := Some(b))
    {
      includeExtensionProperties := Some(b);
    }
  }
}
