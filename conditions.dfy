/**
 * A resource's condition list: at most one condition per type, updated in
 * place when the type is already present and appended otherwise. Transition
 * timestamps are not part of this model.
 */
module Conditions {
  import opened Wrappers

  datatype ConditionStatus = True | False | Unknown

  datatype Condition = Condition(condType: string, status: ConditionStatus, reason: string, message: string)

  predicate UniqueTypes(cs: seq<Condition>) {
    forall i, j :: 0 <= i < j < |cs| ==> cs[i].condType != cs[j].condType
  }

  /** The first condition of type `t`, if any. */
  function GetCondition(cs: seq<Condition>, t: string): (r: Option<Condition>)
    ensures r.Some? ==> r.value.condType == t && r.value in cs
    ensures r.None? <==> forall i :: 0 <= i < |cs| ==> cs[i].condType != t
  {
    if cs == [] then None
    else if cs[0].condType == t then Some(cs[0])
    else GetCondition(cs[1..], t)
  }

  /** Upsert by type: replace the condition of `c`'s type where it stands, or append `c`. */
  function SetCondition(cs: seq<Condition>, c: Condition): (r: seq<Condition>)
    ensures c in r
    ensures |r| == |cs| + (if GetCondition(cs, c.condType).None? then 1 else 0)
    ensures forall i :: 0 <= i < |cs| && cs[i].condType != c.condType ==> cs[i] in r
  {
    if cs == [] then [c]
    else if cs[0].condType == c.condType then [c] + cs[1..]
    else [cs[0]] + SetCondition(cs[1..], c)
  }

  /** After an upsert the condition of that type is the one just set. */
  lemma {:induction false} GetAfterSet(cs: seq<Condition>, c: Condition)
    ensures GetCondition(SetCondition(cs, c), c.condType) == Some(c)
  {
    if cs != [] && cs[0].condType != c.condType {
      GetAfterSet(cs[1..], c);
    }
  }

  /** An upsert leaves every other type as it was. */
  lemma {:induction false} GetOtherAfterSet(cs: seq<Condition>, c: Condition, t: string)
    requires t != c.condType
    ensures GetCondition(SetCondition(cs, c), t) == GetCondition(cs, t)
  {
    if cs != [] && cs[0].condType != c.condType && cs[0].condType != t {
      GetOtherAfterSet(cs[1..], c, t);
    }
  }

  /**
   * Where the new condition lands: an absent type is appended; a present type
   * is replaced at its own position and nothing is reordered.
   */
  lemma {:induction false} SetPlacement(cs: seq<Condition>, c: Condition)
    requires UniqueTypes(cs)
    ensures GetCondition(cs, c.condType).None? ==> SetCondition(cs, c) == cs + [c]
    ensures GetCondition(cs, c.condType).Some? ==>
      |SetCondition(cs, c)| == |cs| &&
      forall i :: 0 <= i < |cs| ==> SetCondition(cs, c)[i] == (if cs[i].condType == c.condType then c else cs[i])
  {
    if cs != [] {
      assert UniqueTypes(cs[1..]) by {
        forall i, j | 0 <= i < j < |cs[1..]| ensures cs[1..][i].condType != cs[1..][j].condType {
          assert cs[1..][i] == cs[i + 1] && cs[1..][j] == cs[j + 1];
        }
      }
      SetPlacement(cs[1..], c);
      if cs[0].condType == c.condType {
        assert GetCondition(cs[1..], c.condType).None? by {
          forall i | 0 <= i < |cs[1..]| ensures cs[1..][i].condType != c.condType {
            assert cs[1..][i] == cs[i + 1];
          }
        }
      }
    }
  }

  /** Upserting keeps the one-condition-per-type invariant. */
  lemma {:induction false} SetKeepsUnique(cs: seq<Condition>, c: Condition)
    requires UniqueTypes(cs)
    ensures UniqueTypes(SetCondition(cs, c))
  {
    SetPlacement(cs, c);
  }

  /** A later upsert of the same type overrides an earlier one; in particular an upsert is idempotent. */
  lemma {:induction false} SetOverrides(cs: seq<Condition>, a: Condition, b: Condition)
    requires a.condType == b.condType
    ensures SetCondition(SetCondition(cs, a), b) == SetCondition(cs, b)
  {
    if cs != [] && cs[0].condType != a.condType {
      SetOverrides(cs[1..], a, b);
    }
  }
}
