/** metav1 conditions and setCondition: a slice used as a map from condition type to condition. */
module Conditions {
  datatype Condition = Condition(kind: string, holds: bool, reason: string, observedGeneration: nat)

  // The slice setCondition leaves: the first condition of the same type replaced, or the new one appended.
  function Set(conditions: seq<Condition>, condition: Condition): seq<Condition> {
    if conditions == [] then [condition]
    else if conditions[0].kind == condition.kind then [condition] + conditions[1..]
    else [conditions[0]] + Set(conditions[1..], condition)
  }

  // What a reader that looks a type up from the left sees.
  function AsMap(conditions: seq<Condition>): map<string, Condition> {
    if conditions == [] then map[] else AsMap(conditions[1..])[conditions[0].kind := conditions[0]]
  }

  ghost predicate Unique(conditions: seq<Condition>) {
    forall i, j :: 0 <= i < j < |conditions| ==> conditions[i].kind != conditions[j].kind
  }

  predicate Holds(conditions: seq<Condition>, kind: string) {
    var m := AsMap(conditions); kind in m && m[kind].holds
  }

  lemma {:induction false} AsMapKeys(conditions: seq<Condition>, kind: string)
    ensures kind in AsMap(conditions) <==> exists i :: 0 <= i < |conditions| && conditions[i].kind == kind
  {
    if conditions != [] {
      AsMapKeys(conditions[1..], kind);
      assert conditions == [conditions[0]] + conditions[1..];
    }
  }

  /** setCondition is exactly one map update, for any slice at all, repeated types included. */
  lemma {:induction false} SetIsMapUpdate(conditions: seq<Condition>, condition: Condition)
    ensures AsMap(Set(conditions, condition)) == AsMap(conditions)[condition.kind := condition]
  {
    if conditions != [] && conditions[0].kind != condition.kind {
      SetIsMapUpdate(conditions[1..], condition);
    }
  }

  /** No condition moves, disappears or changes but the one of the given type, which is appended only
      when it was missing; so a slice without repeated types stays one. */
  lemma {:induction false} SetKeepsOthers(conditions: seq<Condition>, condition: Condition)
    ensures |Set(conditions, condition)| == |conditions| + if condition.kind in AsMap(conditions) then 0 else 1
    ensures forall i :: 0 <= i < |conditions| && conditions[i].kind != condition.kind
                    ==> Set(conditions, condition)[i] == conditions[i]
    ensures forall i :: 0 <= i < |conditions| ==> Set(conditions, condition)[i].kind == conditions[i].kind
    ensures condition.kind !in AsMap(conditions) ==> Set(conditions, condition) == conditions + [condition]
    ensures Unique(conditions) ==> Unique(Set(conditions, condition))
  {
    if conditions != [] {
      SetKeepsOthers(conditions[1..], condition);
    }
    AsMapKeys(conditions, condition.kind);
  }

  // The slice field of a status object, written in place.
  class ConditionList {
    var conditions: seq<Condition>

    constructor (conditions: seq<Condition>)
      ensures this.conditions == conditions
    {
      this.conditions := conditions;
    }

    method SetCondition(condition: Condition)
      modifies this
      ensures conditions == Set(old(conditions), condition)
    {
      for i := 0 to |conditions|
        invariant conditions == old(conditions)
        invariant Set(conditions, condition) == conditions[..i] + Set(conditions[i..], condition)
      {
        if conditions[i].kind == condition.kind {
          conditions := conditions[i := condition];
          return;
        }
      }
      conditions := conditions + [condition];
    }
  }

  // setCondition(&status.Conditions, condition) on the conditions of a status value.
  method SetCondition(conditions: seq<Condition>, condition: Condition) returns (updated: seq<Condition>)
    ensures updated == Set(conditions, condition)
  {
    var list := new ConditionList(conditions);
    list.SetCondition(condition);
    updated := list.conditions;
  }
}
