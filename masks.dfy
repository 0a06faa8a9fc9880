/**
 * Boolean-mask indexing of tensors (`t[mask]`) and `mask.sum()`, the two
 * tensor operations the level-of-detail filters are built from.
 */
module Masks {

  /** Positions at which `m` holds, in ascending order. */
  function TrueIndices(m: seq<bool>): (r: seq<nat>)
    ensures forall j :: 0 <= j < |r| ==> r[j] < |m|
  {
    if |m| == 0 then []
    else TrueIndices(m[..|m| - 1]) + (if m[|m| - 1] then [|m| - 1] else [])
  }

  /** `mask.sum()` on a boolean tensor: the number of true entries. */
  function Count(m: seq<bool>): nat
  {
    |TrueIndices(m)|
  }

  /** `s[m]`: the elements of `s` at the positions where `m` holds, in order. */
  function Select<T>(s: seq<T>, m: seq<bool>): (r: seq<T>)
    requires |m| == |s|
    ensures |r| == Count(m)
    ensures forall j :: 0 <= j < |r| ==> r[j] == s[TrueIndices(m)[j]]
  {
    if |s| == 0 then []
    else
      var init := Select(s[..|s| - 1], m[..|m| - 1]);
      assert TrueIndices(m) == TrueIndices(m[..|m| - 1]) + (if m[|m| - 1] then [|m| - 1] else []);
      init + (if m[|m| - 1] then [s[|s| - 1]] else [])
  }

  /**
   * The selected positions are strictly increasing (original order is kept)
   * and are exactly the positions where the mask holds.
   */
  lemma {:induction false} TrueIndicesSpec(m: seq<bool>)
    ensures forall j, k :: 0 <= j < k < |TrueIndices(m)| ==> TrueIndices(m)[j] < TrueIndices(m)[k]
    ensures forall i: int :: i in TrueIndices(m) <==> 0 <= i < |m| && m[i]
  {
    if |m| > 0 {
      var m' := m[..|m| - 1];
      TrueIndicesSpec(m');
      assert forall i: int :: 0 <= i < |m'| ==> m'[i] == m[i];
    }
  }

  /** A mask sums to zero exactly when no entry holds. */
  lemma CountZero(m: seq<bool>)
    ensures Count(m) == 0 <==> forall i :: 0 <= i < |m| ==> !m[i]
  {
    TrueIndicesSpec(m);
    if Count(m) > 0 {
      assert TrueIndices(m)[0] in TrueIndices(m);
    }
  }

  /** `x` is among the selected elements iff some position holding `x` is selected. */
  lemma SelectMember<T>(s: seq<T>, m: seq<bool>, x: T)
    requires |m| == |s|
    ensures x in Select(s, m) <==> exists i :: 0 <= i < |s| && m[i] && s[i] == x
  {
    TrueIndicesSpec(m);
    var r := Select(s, m);
    if x in r {
      var j :| 0 <= j < |r| && r[j] == x;
      assert TrueIndices(m)[j] in TrueIndices(m);
    }
    if i :| 0 <= i < |s| && m[i] && s[i] == x {
      var j :| 0 <= j < |TrueIndices(m)| && TrueIndices(m)[j] == i;
      assert r[j] == x;
    }
  }

  /** Selecting with a mask that holds nowhere gives the empty sequence. */
  lemma SelectNone<T>(s: seq<T>, m: seq<bool>)
    requires |m| == |s|
    requires forall i :: 0 <= i < |m| ==> !m[i]
    ensures Select(s, m) == []
  {
    CountZero(m);
  }
}
