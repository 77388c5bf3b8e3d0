/** The library operations the controller relies on, stated abstractly:
    meta.SetStatusCondition (an upsert keyed by condition type),
    metav1.IsControlledBy (equality of the controller's uid) and
    ctrl.SetControllerReference (sets the controller entry, or refuses). */
module Apimachinery {
  import opened Api

  /** The part of the runtime scheme that SetControllerReference consults. */
  datatype Scheme = Scheme(registersOwnerKind: bool)

  const OwnerKind := "Samtest"

  /** At most one condition per type. */
  predicate UniqueTypes(conds: seq<Condition>)
  {
    forall i, j :: 0 <= i < j < |conds| ==> conds[i].conditionType != conds[j].conditionType
  }

  /** Replaces the first condition of the same type, or appends. */
  function SetStatusCondition(conds: seq<Condition>, c: Condition): (r: seq<Condition>)
    ensures c in r
    ensures forall x :: x in r ==> x == c || x in conds
    ensures forall x :: x in conds && x.conditionType != c.conditionType ==> x in r
    decreases |conds|
  {
    if conds == [] then [c]
    else if conds[0].conditionType == c.conditionType then [c] + conds[1..]
    else [conds[0]] + SetStatusCondition(conds[1..], c)
  }

  /** The upsert keeps at most one condition per type. */
  lemma {:induction false} SetStatusConditionKeepsUnique(conds: seq<Condition>, c: Condition)
    requires UniqueTypes(conds)
    ensures UniqueTypes(SetStatusCondition(conds, c))
    decreases |conds|
  {
    if conds != [] && conds[0].conditionType != c.conditionType {
      var rest := SetStatusCondition(conds[1..], c);
      SetStatusConditionKeepsUnique(conds[1..], c);
      forall x | x in rest ensures x.conditionType != conds[0].conditionType {
        if x != c {
          var k :| 0 <= k < |conds[1..]| && conds[1..][k] == x;
          assert conds[k + 1] == x;
        }
      }
      var s := [conds[0]] + rest;
      forall i, j | 0 <= i < j < |s| ensures s[i].conditionType != s[j].conditionType {
        if i == 0 { assert s[j] in rest; }
        else { assert s[i] == rest[i - 1] && s[j] == rest[j - 1]; }
      }
    } else if conds != [] {
      var s := [c] + conds[1..];
      forall i, j | 0 <= i < j < |s| ensures s[i].conditionType != s[j].conditionType {
        assert s[j] == conds[j];
        if i != 0 { assert s[i] == conds[i]; }
      }
    }
  }

  /** Setting a condition that is already present changes nothing. */
  lemma {:induction false} SetStatusConditionIdempotent(conds: seq<Condition>, c: Condition)
    requires UniqueTypes(conds) && c in conds
    ensures SetStatusCondition(conds, c) == conds
    decreases |conds|
  {
    var k :| 0 <= k < |conds| && conds[k] == c;
    if conds[0].conditionType == c.conditionType {
      assert k == 0;
    } else {
      assert k != 0 && conds[1..][k - 1] == c;
      SetStatusConditionIdempotent(conds[1..], c);
      assert conds == [conds[0]] + conds[1..];
    }
  }

  /** The object's controller is the given record: only the controller entry's
      uid is compared (ControlIsByUid states this as a contract). */
  predicate IsControlledBy(obj: Object, owner: Samtest)
  {
    obj.meta.controller.Some? && obj.meta.controller.value.uid == owner.uid
  }

  /** Control is decided by the controller entry's uid alone: an object without a
      controller entry is controlled by no record, and objects with the same
      controller entry are controlled by the same records, the records that
      share the owner's uid. */
  lemma ControlIsByUid(obj: Object, other: Object, owner: Samtest, sameUid: Samtest)
    requires other.meta.controller == obj.meta.controller && sameUid.uid == owner.uid
    ensures obj.meta.controller.None? ==> !IsControlledBy(obj, owner)
    ensures IsControlledBy(obj, owner) <==> IsControlledBy(other, sameUid)
  {
  }

  /** A controller entry naming another object (kind or name differ). */
  predicate OwnedByOther(obj: Object, owner: Samtest)
  {
    obj.meta.controller.Some? &&
    (obj.meta.controller.value.kind != OwnerKind || obj.meta.controller.value.name != owner.name)
  }

  function SetControllerReference(owner: Samtest, obj: Object, scheme: Scheme): (r: Result<Object>)
    ensures r.Ok? <==> scheme.registersOwnerKind && !OwnedByOther(obj, owner)
    ensures r.Err? && !scheme.registersOwnerKind ==> r.error == KindNotRegistered
    ensures r.Err? && scheme.registersOwnerKind ==> r.error == AlreadyOwned
    ensures r.Ok? ==> IsControlledBy(r.value, owner)
    ensures r.Ok? ==> r.value.spec == obj.spec && r.value.typeMeta == obj.typeMeta
    ensures r.Ok? ==> r.value.meta.(controller := obj.meta.controller) == obj.meta
  {
    if !scheme.registersOwnerKind then Err(KindNotRegistered)
    else if OwnedByOther(obj, owner) then Err(AlreadyOwned)
    else Ok(obj.(meta := obj.meta.(controller := Some(OwnerRef(OwnerKind, owner.name, owner.uid)))))
  }
}
