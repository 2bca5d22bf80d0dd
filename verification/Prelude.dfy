/** Small shared vocabulary: optional values, the positions of a sequence, counting them, and shuffling one. */
module Prelude {

  datatype Option<+T> = None | Some(value: T)

  function Max(a: int, b: int): int { if a < b then b else a }

  function Min(a: int, b: int): int { if a < b then a else b }

  predicate Distinct<T(==)>(s: seq<T>) {
    forall i, j | 0 <= i < j < |s| :: s[i] != s[j]
  }

  /** The first position of `x` at or after `from`. */
  function IndexFrom<T(==)>(s: seq<T>, x: T, from: nat): (r: Option<nat>)
    requires from <= |s|
    ensures r.Some? ==> from <= r.value < |s| && s[r.value] == x
    ensures r.None? ==> x !in s[from..]
    decreases |s| - from
  {
    if from == |s| then None else if s[from] == x then Some(from) else IndexFrom(s, x, from + 1)
  }

  /** The first position of `x`, as Python's `list.index` finds it. */
  function IndexOf<T(==)>(s: seq<T>, x: T): (r: Option<nat>)
    ensures r.Some? ==> r.value < |s| && s[r.value] == x
    ensures r.None? <==> x !in s
  {
    assert s[0..] == s;
    IndexFrom(s, x, 0)
  }

  lemma {:induction false} IndexFromIsFirst<T>(s: seq<T>, x: T, from: nat)
    requires from <= |s| && IndexFrom(s, x, from).Some?
    ensures forall k | from <= k < IndexFrom(s, x, from).value :: s[k] != x
    decreases |s| - from
  {
    if s[from] != x {
      IndexFromIsFirst(s, x, from + 1);
    }
  }

  /** The position found is the one that holds the element with no earlier one holding it. */
  lemma {:induction false} IndexOfIsFirst<T>(s: seq<T>, x: T, i: nat)
    ensures IndexOf(s, x) == Some(i) <==> i < |s| && s[i] == x && forall k | 0 <= k < i :: s[k] != x
  {
    assert s[0..] == s;
    if x in s {
      IndexFromIsFirst(s, x, 0);
    }
  }

  /** On distinct elements a position and the element there name each other. */
  lemma IndexOfDistinct<T>(s: seq<T>, i: nat)
    requires Distinct(s) && i < |s|
    ensures IndexOf(s, s[i]) == Some(i)
  {
    var r := IndexOf(s, s[i]).value;
    assert s[r] == s[i];
  }

  /** A count as the size of an index set: one more place in front moves every other place up by one. */
  lemma {:induction false} OneInFront(whole: set<nat>, rest: set<nat>)
    requires forall i: nat :: i + 1 in whole <==> i in rest
    ensures |whole| == |rest| + if 0 in whole then 1 else 0
  {
    forall i | i in whole ensures i == 0 || i - 1 in rest {
      if i > 0 {
        var before: nat := i - 1;
        assert before in rest;
      }
    }
    if rest == {} {
      assert whole == if 0 in whole then {0} else {};
    } else {
      var i :| i in rest;
      OneInFront(whole - {i + 1}, rest - {i});
    }
  }

  /** Any order a random generator's in-place shuffle may leave a list in. */
  method Shuffle<T>(s: seq<T>) returns (t: seq<T>)
    ensures multiset(t) == multiset(s) && |t| == |s|
  {
    t := s;
    var i := |s|;
    while i > 1
      invariant i <= |s| == |t| && multiset(t) == multiset(s)
    {
      i := i - 1;
      var j: nat :| j <= i;
      t := t[i := t[j]][j := t[i]];
    }
  }
}
