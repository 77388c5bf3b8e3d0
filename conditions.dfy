/** internal/k8s/conditions.go: the closed set of status outcomes and the table
    that turns each into a meta/v1 Condition. The two Go lookup maps are total
    over their enumerations, so they become total functions here. */
module Conditions {
  import opened Api

  datatype ConditionType = ConditionReady | ConditionProgressing | ConditionFailed

  datatype ConditionReason = ResourcesReady | ProgressingResources | ResourcesFailed

  /** One row of the reason table: which type, reason and message a reason maps to. */
  datatype ReasonEntry = ReasonEntry(conditionType: ConditionType, reason: string, message: string)

  /** ConditionTypeMap: the user-visible name of each condition type. */
  function ConditionTypeName(t: ConditionType): (name: string)
    ensures name == "Ready" <==> t == ConditionReady
    ensures name == "Progressing" <==> t == ConditionProgressing
    ensures name == "Failed" <==> t == ConditionFailed
  {
    match t
    case ConditionReady => "Ready"
    case ConditionProgressing => "Progressing"
    case ConditionFailed => "Failed"
  }

  /** conditionReasonMap: each outcome has its own condition type, and its reason
      string is the outcome's own name. The Ready message is kept verbatim,
      "Recources" included. */
  function ReasonEntryOf(reason: ConditionReason): (entry: ReasonEntry)
    ensures entry.conditionType == ConditionReady <==> reason == ResourcesReady
    ensures entry.conditionType == ConditionProgressing <==> reason == ProgressingResources
    ensures entry.conditionType == ConditionFailed <==> reason == ResourcesFailed
    ensures reason == ResourcesReady ==> entry.reason == "ResourcesReady"
    ensures reason == ProgressingResources ==> entry.reason == "ProgressingResources"
    ensures reason == ResourcesFailed ==> entry.reason == "ResourcesFailed"
  {
    match reason
    case ResourcesReady =>
      ReasonEntry(ConditionReady, "ResourcesReady", "Recources all ready and in desired state")
    case ProgressingResources =>
      ReasonEntry(ConditionProgressing, "ProgressingResources", "Progressing resources to sync with the desired state")
    case ResourcesFailed =>
      ReasonEntry(ConditionFailed, "ResourcesFailed", "Failed to provision resources")
  }

  /** The status condition written for an outcome: always Status True, with type,
      reason and message all taken from that outcome's table row. */
  function NewStatusCondition(reason: ConditionReason): (c: Condition)
    ensures c.status == ConditionTrue
    ensures reason == ResourcesReady ==>
      c == Condition("Ready", ConditionTrue, "ResourcesReady", "Recources all ready and in desired state")
    ensures reason == ProgressingResources ==>
      c == Condition("Progressing", ConditionTrue, "ProgressingResources", "Progressing resources to sync with the desired state")
    ensures reason == ResourcesFailed ==>
      c == Condition("Failed", ConditionTrue, "ResourcesFailed", "Failed to provision resources")
  {
    var entry := ReasonEntryOf(reason);
    Condition(ConditionTypeName(entry.conditionType), ConditionTrue, entry.reason, entry.message)
  }

  /** Distinct outcomes give conditions of distinct types, so each outcome owns
      its own slot in the status (the upsert never lets one overwrite another). */
  lemma NewStatusConditionTypesDistinct(a: ConditionReason, b: ConditionReason)
    ensures NewStatusCondition(a).conditionType == NewStatusCondition(b).conditionType <==> a == b
  {
    if a != b {
      var ta, tb := NewStatusCondition(a).conditionType, NewStatusCondition(b).conditionType;
      assert |ta| != |tb|;
    }
  }

  /** The condition's reason names the outcome it was built from. */
  lemma NewStatusConditionReasonIdentifies(a: ConditionReason, b: ConditionReason)
    ensures NewStatusCondition(a).reason == NewStatusCondition(b).reason <==> a == b
  {
    if a != b {
      var ra, rb := NewStatusCondition(a).reason, NewStatusCondition(b).reason;
      assert |ra| != |rb|;
    }
  }
}
