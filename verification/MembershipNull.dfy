/** Fixed predictions against shuffled label sets: the null mean is exact over all n! shuffles. */
module MembershipNull {
  import opened Arithmetic
  import opened Prelude

  type Labels = seq<string>

  // ---- All orders of a list -------------------------------------------------------

  function Factorial(n: nat): (f: nat)
    ensures f > 0
  {
    if n == 0 then 1 else n * Factorial(n - 1)
  }

  function Without(s: seq<nat>, i: nat): (r: seq<nat>)
    requires i < |s|
    ensures |r| == |s| - 1 && multiset(s) == multiset(r) + multiset{s[i]}
  {
    assert s == s[..i] + [s[i]] + s[i + 1..];
    s[..i] + s[i + 1..]
  }

  function Prefixed(x: nat, ts: seq<seq<nat>>): (r: seq<seq<nat>>)
    ensures |r| == |ts| && forall i | 0 <= i < |ts| :: r[i] == [x] + ts[i]
  {
    seq(|ts|, i requires 0 <= i < |ts| => [x] + ts[i])
  }

  /** Every order of `s`, one for each way of picking its positions. */
  function Orders(s: seq<nat>): seq<seq<nat>>
    decreases |s|, |s| + 1
  {
    if s == [] then [[]] else OrdersFrom(s, 0)
  }

  /** The orders that pick position `i` or a later one first. */
  function OrdersFrom(s: seq<nat>, i: nat): seq<seq<nat>>
    requires i <= |s|
    decreases |s|, |s| - i
  {
    if i == |s| then [] else Prefixed(s[i], Orders(Without(s, i))) + OrdersFrom(s, i + 1)
  }

  lemma {:induction false} OrdersCount(s: seq<nat>)
    ensures |Orders(s)| == Factorial(|s|)
    decreases |s|, |s| + 1
  {
    if s == [] {
    } else {
      OrdersFromCount(s, 0);
      assert Factorial(|s|) == |s| * Factorial(|s| - 1);
    }
  }

  lemma {:induction false} OrdersFromCount(s: seq<nat>, i: nat)
    requires i <= |s| && s != []
    ensures |OrdersFrom(s, i)| == Factorial(|s| - 1) * (|s| - i)
    decreases |s|, |s| - i
  {
    hide Factorial, Orders, Without;
    if i == |s| {
    } else {
      OrdersCount(Without(s, i));
      OrdersFromCount(s, i + 1);
      assert |OrdersFrom(s, i)| == Factorial(|s| - 1) + |OrdersFrom(s, i + 1)|;
      Distribute(1, |s| - (i + 1), Factorial(|s| - 1));
    }
  }

  /** `t` picks position `k` of `s` first and then rearranges the rest. */
  ghost predicate Picks(s: seq<nat>, t: seq<nat>, k: nat) {
    k < |s| && t != [] && t[0] == s[k] && multiset(t[1..]) == multiset(Without(s, k))
  }

  /** The orders of `s` are exactly its rearrangements. */
  lemma {:induction false} OrdersAreRearrangements(s: seq<nat>, t: seq<nat>)
    ensures t in Orders(s) <==> multiset(t) == multiset(s)
    decreases |s|, |s| + 1
  {
    hide Without, Picks;
    if s == [] {
      assert multiset(t) == multiset([]) ==> |multiset(t)| == 0;
    } else {
      OrdersFromHold(s, 0, t);
      RearrangementPicks(s, t);
    }
  }

  lemma RearrangementPicks(s: seq<nat>, t: seq<nat>)
    requires s != []
    ensures multiset(t) == multiset(s) <==> exists k :: 0 <= k < |s| && Picks(s, t, k)
  {
    hide Picks, Without;
    if multiset(t) == multiset(s) {
      var k := PickOf(s, t);
    }
    if k :| 0 <= k < |s| && Picks(s, t, k) {
      PickedIsRearranged(s, t, k);
    }
  }

  lemma PickOf(s: seq<nat>, t: seq<nat>) returns (k: nat)
    requires s != [] && multiset(t) == multiset(s)
    ensures k < |s| && Picks(s, t, k)
  {
    hide Without;
    assert |multiset(t)| == |multiset(s)|;
    assert t == [t[0]] + t[1..];
    assert t[0] in multiset(s);
    k :| 0 <= k < |s| && s[k] == t[0];
    var w := Without(s, k);
    assert multiset(t[1..]) == multiset(t) - multiset{t[0]} == multiset(w);
  }

  lemma PickedIsRearranged(s: seq<nat>, t: seq<nat>, k: nat)
    requires Picks(s, t, k)
    ensures multiset(t) == multiset(s)
  {
    hide Without;
    assert t == [t[0]] + t[1..];
  }

  lemma {:induction false} OrdersFromHold(s: seq<nat>, i: nat, t: seq<nat>)
    requires i <= |s|
    ensures t in OrdersFrom(s, i) <==> exists k :: i <= k < |s| && Picks(s, t, k)
    decreases |s|, |s| - i
  {
    hide Orders, Picks, Without, Prefixed;
    if i == |s| {
    } else {
      OrdersFromHold(s, i + 1, t);
      if t != [] {
        OrdersAreRearrangements(Without(s, i), t[1..]);
      }
      PickedHere(s, i, t);
    }
  }

  lemma PickedHere(s: seq<nat>, i: nat, t: seq<nat>)
    requires i < |s|
    requires t != [] ==> (t[1..] in Orders(Without(s, i)) <==> multiset(t[1..]) == multiset(Without(s, i)))
    ensures t in Prefixed(s[i], Orders(Without(s, i))) <==> Picks(s, t, i)
  {
    hide Orders, Without;
    PrefixedHolds(s[i], Orders(Without(s, i)), t);
  }

  lemma PrefixedHolds(x: nat, ts: seq<seq<nat>>, t: seq<nat>)
    ensures t in Prefixed(x, ts) <==> t != [] && t[0] == x && t[1..] in ts
  {
    var r := Prefixed(x, ts);
    if t in r {
      var i :| 0 <= i < |r| && r[i] == t;
      assert t[1..] == ts[i];
    }
    if t != [] && t[0] == x && t[1..] in ts {
      var i :| 0 <= i < |ts| && ts[i] == t[1..];
      assert r[i] == t;
    }
  }

  /** No order of distinct entries comes up twice, so each of the n! orders counts once. */
  lemma {:induction false} OrdersAreDistinct(s: seq<nat>)
    requires Distinct(s)
    ensures Distinct(Orders(s))
    decreases |s|, |s| + 1
  {
    if s == [] {
    } else {
      OrdersFromDistinct(s, 0);
    }
  }

  lemma {:induction false} OrdersFromDistinct(s: seq<nat>, i: nat)
    requires i <= |s| && Distinct(s)
    ensures Distinct(OrdersFrom(s, i))
    ensures forall t | t in OrdersFrom(s, i) :: t != [] && t[0] in s[i..]
    decreases |s|, |s| - i
  {
    if i < |s| {
      var rest := Without(s, i);
      OrdersFromDistinct(s, i + 1);
      OrdersAreDistinct(rest);
      PrefixedDistinct(s[i], Orders(rest));
      var a, b := Prefixed(s[i], Orders(rest)), OrdersFrom(s, i + 1);
      forall j, k | 0 <= j < |a| && 0 <= k < |b| ensures a[j] != b[k] {
        assert b[k] in b && a[j][0] == s[i];
      }
      DistinctConcat(a, b);
    }
  }

  lemma PrefixedDistinct(x: nat, ts: seq<seq<nat>>)
    requires Distinct(ts)
    ensures Distinct(Prefixed(x, ts))
  {
    var r := Prefixed(x, ts);
    forall i, j | 0 <= i < j < |r| ensures r[i] != r[j] {
      assert r[i][1..] == ts[i] && r[j][1..] == ts[j];
    }
  }

  lemma DistinctConcat(a: seq<seq<nat>>, b: seq<seq<nat>>)
    requires Distinct(a) && Distinct(b) && forall j, k | 0 <= j < |a| && 0 <= k < |b| :: a[j] != b[k]
    ensures Distinct(a + b)
  {}

  // ---- Scores ----------------------------------------------------------------------

  predicate Member(p: string, a: Labels) {
    p in a
  }

  predicate Within(t: seq<nat>, n: nat) {
    forall i | 0 <= i < |t| :: t[i] < n
  }

  /** How many predictions are members of the label set that the order `t` deals them. */
  function Score(predictions: seq<string>, acceptable: seq<Labels>, t: seq<nat>): (n: nat)
    requires |predictions| == |t| && Within(t, |acceptable|)
    ensures n <= |t|
  {
    if t == [] then 0
    else (if Member(predictions[0], acceptable[t[0]]) then 1 else 0) + Score(predictions[1..], acceptable, t[1..])
  }

  /** How many predictions are members of one label set. */
  function Column(predictions: seq<string>, labels: Labels): nat {
    if predictions == [] then 0
    else (if Member(predictions[0], labels) then 1 else 0) + Column(predictions[1..], labels)
  }

  /** The pairs (prediction, label set) in which the prediction is a member. */
  function Pairs(predictions: seq<string>, acceptable: seq<Labels>, s: seq<nat>): nat
    requires Within(s, |acceptable|)
  {
    if s == [] then 0 else Column(predictions, acceptable[s[0]]) + Pairs(predictions, acceptable, s[1..])
  }

  predicate Scorable(predictions: seq<string>, acceptable: seq<Labels>, ts: seq<seq<nat>>) {
    forall i | 0 <= i < |ts| :: |ts[i]| == |predictions| && Within(ts[i], |acceptable|)
  }

  function TotalScore(predictions: seq<string>, acceptable: seq<Labels>, ts: seq<seq<nat>>): nat
    requires Scorable(predictions, acceptable, ts)
  {
    if ts == [] then 0
    else Score(predictions, acceptable, ts[0]) + TotalScore(predictions, acceptable, ts[1..])
  }

  /** The score is the number of places whose prediction is one of the labels dealt there. */
  lemma {:induction false} ScoreIsCount(q: seq<string>, acc: seq<Labels>, t: seq<nat>)
    requires |q| == |t| && Within(t, |acc|)
    ensures Score(q, acc, t) == |set i: nat | i < |t| && q[i] in acc[t[i]]|
  {
    var whole := set i: nat | i < |t| && q[i] in acc[t[i]];
    if t == [] {
    } else {
      ScoreIsCount(q[1..], acc, t[1..]);
      OneInFront(whole, set i: nat | i < |t[1..]| && q[1..][i] in acc[t[1..][i]]);
    }
  }

  lemma {:induction false} TotalConcat(q: seq<string>, acc: seq<Labels>, a: seq<seq<nat>>, b: seq<seq<nat>>)
    requires Scorable(q, acc, a) && Scorable(q, acc, b)
    ensures Scorable(q, acc, a + b) && TotalScore(q, acc, a + b) == TotalScore(q, acc, a) + TotalScore(q, acc, b)
  {
    if a == [] {
      assert a + b == b;
    } else {
      assert (a + b)[1..] == a[1..] + b;
      TotalConcat(q, acc, a[1..], b);
    }
  }

  /** Dealing `x` first in every order adds the first prediction's hit once per order. */
  lemma {:induction false} TotalPrefixed(q: seq<string>, acc: seq<Labels>, x: nat, ts: seq<seq<nat>>)
    requires q != [] && x < |acc| && Scorable(q[1..], acc, ts)
    ensures Scorable(q, acc, Prefixed(x, ts))
    ensures TotalScore(q, acc, Prefixed(x, ts)) ==
            |ts| * (if Member(q[0], acc[x]) then 1 else 0) + TotalScore(q[1..], acc, ts)
  {
    var r := Prefixed(x, ts);
    if ts == [] {
    } else {
      assert r[1..] == Prefixed(x, ts[1..]);
      TotalPrefixed(q, acc, x, ts[1..]);
      assert r[0][1..] == ts[0];
    }
  }

  lemma {:induction false} PairsConcat(q: seq<string>, acc: seq<Labels>, a: seq<nat>, b: seq<nat>)
    requires Within(a, |acc|) && Within(b, |acc|)
    ensures Within(a + b, |acc|) && Pairs(q, acc, a + b) == Pairs(q, acc, a) + Pairs(q, acc, b)
  {
    if a == [] {
      assert a + b == b;
    } else {
      assert (a + b)[1..] == a[1..] + b;
      PairsConcat(q, acc, a[1..], b);
    }
  }

  lemma PairsWithout(q: seq<string>, acc: seq<Labels>, s: seq<nat>, i: nat)
    requires i < |s| && Within(s, |acc|)
    ensures Within(Without(s, i), |acc|)
    ensures Pairs(q, acc, Without(s, i)) == Pairs(q, acc, s) - Column(q, acc[s[i]])
  {
    PairsConcat(q, acc, s[..i], s[i + 1..]);
    PairsConcat(q, acc, s[..i], s[i..]);
    assert s == s[..i] + s[i..] && s[i..][1..] == s[i + 1..];
  }

  lemma ColumnOfOne(p: string, labels: Labels)
    ensures Column([p], labels) == if Member(p, labels) then 1 else 0
  {
    assert [p][1..] == [];
  }

  lemma {:induction false} PairsByFirst(q: seq<string>, acc: seq<Labels>, s: seq<nat>)
    requires q != [] && Within(s, |acc|)
    ensures Pairs(q, acc, s) == Pairs([q[0]], acc, s) + Pairs(q[1..], acc, s)
  {
    if s == [] {
    } else {
      PairsByFirst(q, acc, s[1..]);
      ColumnOfOne(q[0], acc[s[0]]);
    }
  }

  // ---- The exact mean ----------------------------------------------------------------

  /** In how many of the n! orders a given label set stands at a given place: (n-1)!. */
  function PlacesEach(n: nat): nat {
    if n == 0 then 1 else Factorial(n - 1)
  }

  /** Over all orders of `s` every pair (prediction, label set) is scored the same number of times. */
  lemma {:induction false} EveryPairEquallyOften(q: seq<string>, acc: seq<Labels>, s: seq<nat>)
    requires |q| == |s| && Within(s, |acc|)
    ensures Scorable(q, acc, Orders(s))
    ensures TotalScore(q, acc, Orders(s)) == PlacesEach(|s|) * Pairs(q, acc, s)
    decreases |s|, |s| + 1
  {
    hide Score, Column, Pairs, TotalScore, OrdersFrom, Factorial, PlacesEach, Scorable, Within;
    if s == [] {
      NothingToDeal(q, acc);
    } else {
      PickedScores(q, acc, s, 0);
      assert s[0..] == s;
      PairsByFirst(q, acc, s);
      var firsts, others := Pairs([q[0]], acc, s), Pairs(q[1..], acc, s);
      PlacesOneFewer(|s|);
      Distribute(firsts, others, PlacesEach(|s|));
      if |s| == 1 {
        assert q[1..] == [];
        NoPredictions(acc, s);
      } else {
        Regroup(PlacesEach(|s| - 1), |s|, others);
      }
    }
  }

  lemma NothingToDeal(q: seq<string>, acc: seq<Labels>)
    requires q == []
    ensures Within([], |acc|) && Scorable(q, acc, Orders([]))
    ensures TotalScore(q, acc, Orders([])) == 0 && Pairs(q, acc, []) == 0
  {}

  lemma PlacesOneFewer(n: nat)
    requires n > 0
    ensures PlacesEach(n) == Factorial(n - 1) && (n > 1 ==> PlacesEach(n) == (n - 1) * PlacesEach(n - 1))
  {}

  lemma Regroup(p: int, n: int, x: int)
    ensures p * (n * x - x) == (n - 1) * p * x
  {}

  lemma {:induction false} NoPredictions(acc: seq<Labels>, s: seq<nat>)
    requires Within(s, |acc|)
    ensures Pairs([], acc, s) == 0
  {
    if s == [] {
    } else {
      NoPredictions(acc, s[1..]);
    }
  }

  lemma {:induction false} PickedScores(q: seq<string>, acc: seq<Labels>, s: seq<nat>, i: nat)
    requires |q| == |s| > 0 && Within(s, |acc|) && i <= |s|
    ensures Scorable(q, acc, OrdersFrom(s, i))
    ensures TotalScore(q, acc, OrdersFrom(s, i)) ==
            Factorial(|s| - 1) * Pairs([q[0]], acc, s[i..]) +
            PlacesEach(|s| - 1) * ((|s| - i) * Pairs(q[1..], acc, s) - Pairs(q[1..], acc, s[i..]))
    decreases |s|, |s| - i
  {
    hide Score, Column, Pairs, TotalScore, Orders, Factorial, PlacesEach, Scorable, Without, Prefixed, Member;
    if i == |s| {
      NothingLeft(q, acc, s);
    } else {
      var rest, w := q[1..], Without(s, i);
      PairsWithout(rest, acc, s, i);
      EveryPairEquallyOften(rest, acc, w);
      TotalPrefixed(q, acc, s[i], Orders(w));
      OrdersCount(w);
      PickedScores(q, acc, s, i + 1);
      TotalConcat(q, acc, Prefixed(s[i], Orders(w)), OrdersFrom(s, i + 1));
      OnePick(q, acc, s, i);
      Gather(Factorial(|s| - 1), PlacesEach(|s| - 1), if Member(q[0], acc[s[i]]) then 1 else 0,
             Pairs([q[0]], acc, s[i + 1..]), Pairs(rest, acc, s), Column(rest, acc[s[i]]),
             Pairs(rest, acc, s[i + 1..]), |s| - i);
    }
  }

  lemma NothingLeft(q: seq<string>, acc: seq<Labels>, s: seq<nat>)
    requires q != [] && Within(s, |acc|)
    ensures Scorable(q, acc, []) && TotalScore(q, acc, []) == 0
    ensures Pairs([q[0]], acc, s[|s|..]) == 0 && Pairs(q[1..], acc, s[|s|..]) == 0
  {}

  lemma OnePick(q: seq<string>, acc: seq<Labels>, s: seq<nat>, i: nat)
    requires q != [] && i < |s| && Within(s, |acc|)
    ensures Pairs([q[0]], acc, s[i..]) ==
            (if Member(q[0], acc[s[i]]) then 1 else 0) + Pairs([q[0]], acc, s[i + 1..])
    ensures Pairs(q[1..], acc, s[i..]) == Column(q[1..], acc[s[i]]) + Pairs(q[1..], acc, s[i + 1..])
  {
    assert s[i..][1..] == s[i + 1..];
    ColumnOfOne(q[0], acc[s[i]]);
  }

  lemma Gather(f: int, p: int, hit: int, firsts: int, all: int, col: int, later: int, left: int)
    ensures f * hit + p * (all - col) + (f * firsts + p * ((left - 1) * all - later)) ==
            f * (hit + firsts) + p * (left * all - (col + later))
  {
    calc {
      f * hit + p * (all - col) + (f * firsts + p * ((left - 1) * all - later));
      { Distribute(hit, firsts, f); Distribute(all - col, (left - 1) * all - later, p); }
      f * (hit + firsts) + p * (all - col + ((left - 1) * all - later));
      { assert (left - 1) * all == left * all - all; }
      f * (hit + firsts) + p * (left * all - (col + later));
    }
  }

  function Positions(n: nat): (s: seq<nat>)
    ensures |s| == n && Within(s, n) && Distinct(s)
  {
    seq(n, i requires 0 <= i < n => i)
  }

  /** The reported mean: the share of member pairs among all pairs. */
  function Mean(predictions: seq<string>, acceptable: seq<Labels>): real
    requires |predictions| == |acceptable| > 0
  {
    var n := |predictions|;
    Pairs(predictions, acceptable, Positions(n)) as real / (n * n) as real
  }

  /** The reported mean is the average score share over all n! orders, each taken once. */
  lemma {:induction false} MeanIsExact(q: seq<string>, acc: seq<Labels>)
    requires |q| == |acc| > 0
    ensures var n, orders := |q|, Orders(Positions(|q|));
            && |orders| == Factorial(n) && Distinct(orders) && Scorable(q, acc, orders)
            && Mean(q, acc) == TotalScore(q, acc, orders) as real / n as real / Factorial(n) as real
    ensures forall t: seq<nat> :: t in Orders(Positions(|q|)) <==> multiset(t) == multiset(Positions(|q|))
  {
    hide Pairs, TotalScore, Orders, Positions, Scorable, Distinct;
    var n := |q|;
    var s := Positions(n);
    OrdersCount(s);
    OrdersAreDistinct(s);
    EveryPairEquallyOften(q, acc, s);
    var f, pairs, total := Factorial(n - 1), Pairs(q, acc, s), TotalScore(q, acc, Orders(s));
    RealProduct(n, n, n * n);
    RealProduct(n, f, Factorial(n));
    RealProduct(f, pairs, total);
    PositiveProduct(n, n, n * n);
    ShareOut(n as real, f as real, pairs as real, (n * n) as real, Factorial(n) as real, total as real);
    forall t: seq<nat> ensures t in Orders(s) <==> multiset(t) == multiset(s) {
      OrdersAreRearrangements(s, t);
    }
  }

  /** Spreading `bc` over `a` and then over `ab` is spreading `c` over `aa`. */
  lemma ShareOut(a: real, b: real, c: real, aa: real, ab: real, bc: real)
    requires a > 0.0 && b > 0.0 && aa > 0.0 && ab > 0.0 && aa == a * a && ab == a * b && bc == b * c
    ensures c / aa == bc / a / ab
  {
    var x, y := c / aa, bc / a / ab;
    Cancel(c, aa);
    Cancel(bc, a);
    Cancel(bc / a, ab);
    assert y * aa * b == y * ab * a;
    SameFactor(y * aa, c, b);
    SameFactor(x, y, aa);
  }

  lemma RealProduct(a: int, b: int, c: int)
    requires c == a * b
    ensures c as real == a as real * b as real
  {}

  lemma PositiveProduct(a: int, b: int, c: int)
    requires a > 0 && b > 0 && c == a * b
    ensures c > 0
  {}

  // ---- The report ----------------------------------------------------------------------

  datatype Report = Report(expected: real, low: real, high: real, observed: real, pUpper: real)

  predicate Ascending(s: seq<real>) {
    forall i | 0 < i < |s| :: s[i - 1] <= s[i]
  }

  lemma {:induction false} AscendingOrder(s: seq<real>, i: nat, j: nat)
    requires Ascending(s) && i <= j < |s|
    ensures s[i] <= s[j]
    decreases j
  {
    if i < j {
      AscendingOrder(s, i, j - 1);
    }
  }

  /** How many numbers lie from `lo` to `hi`. */
  function Inside(s: seq<real>, lo: real, hi: real): (n: nat)
    ensures n <= |s|
  {
    if s == [] then 0 else (if lo <= s[0] <= hi then 1 else 0) + Inside(s[1..], lo, hi)
  }

  /** How many numbers are `x` or more. */
  function AtLeast(s: seq<real>, x: real): nat {
    if s == [] then 0 else (if s[0] >= x then 1 else 0) + AtLeast(s[1..], x)
  }

  function Insert(x: real, s: seq<real>): (t: seq<real>)
    requires Ascending(s)
    ensures Ascending(t) && |t| == |s| + 1
    ensures t[0] == if s == [] || x <= s[0] then x else s[0]
  {
    if s == [] || x <= s[0] then [x] + s else [s[0]] + Insert(x, s[1..])
  }

  function Sorted(s: seq<real>): (t: seq<real>)
    ensures Ascending(t) && |t| == |s|
  {
    if s == [] then [] else Insert(s[0], Sorted(s[1..]))
  }

  lemma {:induction false} InsertCounts(x: real, s: seq<real>, lo: real, hi: real)
    requires Ascending(s)
    ensures Inside(Insert(x, s), lo, hi) == Inside(s, lo, hi) + if lo <= x <= hi then 1 else 0
  {
    if s == [] || x <= s[0] {
      assert ([x] + s)[1..] == s;
    } else {
      InsertCounts(x, s[1..], lo, hi);
      var u := Insert(x, s[1..]);
      assert ([s[0]] + u)[1..] == u;
    }
  }

  /** Sorting moves no score across a bound. */
  lemma {:induction false} SortKeepsInside(s: seq<real>, lo: real, hi: real)
    ensures Inside(Sorted(s), lo, hi) == Inside(s, lo, hi)
  {
    if s == [] {
    } else {
      SortKeepsInside(s[1..], lo, hi);
      InsertCounts(s[0], Sorted(s[1..]), lo, hi);
    }
  }

  lemma {:induction false} AtLeastIsCount(s: seq<real>, x: real)
    ensures AtLeast(s, x) == |set i: nat | i < |s| && s[i] >= x|
  {
    var whole := set i: nat | i < |s| && s[i] >= x;
    if s == [] {
    } else {
      AtLeastIsCount(s[1..], x);
      OneInFront(whole, set i: nat | i < |s[1..]| && s[1..][i] >= x);
    }
  }

  /** What lies between two bounds is counted by place, the bounds included. */
  lemma {:induction false} InsideIsCount(s: seq<real>, lo: real, hi: real)
    ensures Inside(s, lo, hi) == |set i: nat | i < |s| && lo <= s[i] <= hi|
  {
    var whole := set i: nat | i < |s| && lo <= s[i] <= hi;
    if s == [] {
    } else {
      InsideIsCount(s[1..], lo, hi);
      OneInFront(whole, set i: nat | i < |s[1..]| && lo <= s[1..][i] <= hi);
    }
  }

  /** The score shares of a list of orders. */
  function Shares(q: seq<string>, acc: seq<Labels>, ts: seq<seq<nat>>): (s: seq<real>)
    requires q != [] && Scorable(q, acc, ts)
    ensures |s| == |ts|
  {
    seq(|ts|, i requires 0 <= i < |ts| => Score(q, acc, ts[i]) as real / |q| as real)
  }

  /** Where the two bounds stand in the sorted scores. */
  function LowPlace(m: nat): nat
    requires m > 0
  {
    (m - 1) / 40
  }

  function HighPlace(m: nat): (h: nat)
    requires m > 0
    ensures LowPlace(m) <= h < m
  {
    39 * (m - 1) / 40
  }

  method PermutationNull(predictions: seq<string>, acceptable: seq<Labels>, samples: int)
    returns (r: Option<Report>, ghost draws: seq<seq<nat>>)
    ensures r.None? <==> |predictions| != |acceptable| || predictions == [] || samples < 1
    ensures r.Some? ==>
              && |draws| == samples
              && Scorable(predictions, acceptable, draws)
              && (forall i | 0 <= i < samples :: draws[i] in Orders(Positions(|predictions|)))
              && var shares := Shares(predictions, acceptable, draws);
                 && r.value.expected == 100.0 * Mean(predictions, acceptable)
                 && r.value.observed ==
                    100.0 * (Score(predictions, acceptable, Positions(|predictions|)) as real / |predictions| as real)
                 && r.value.low == 100.0 * Sorted(shares)[(samples - 1) / 40]
                 && r.value.high == 100.0 * Sorted(shares)[39 * (samples - 1) / 40]
    ensures r.Some? ==>
              && r.value.pUpper * (samples + 1) as real == (1 + |NoWorse(predictions, acceptable, draws)|) as real
              && (r.value.pUpper == 1.0 <==>
                    forall i | 0 <= i < samples ::
                      Score(predictions, acceptable, Positions(|predictions|)) <=
                      Score(predictions, acceptable, draws[i]))
  {
    hide Orders, Sorted, Inside, AtLeast, Pairs, Mean, Score, NoWorse, Shares, Scorable, Within, Positions;
    NothingDrawn(predictions, acceptable);
    draws := [];
    if |predictions| != |acceptable| || predictions == [] || samples < 1 {
      return None, [];
    }
    var n := |predictions|;
    var start := Positions(n);
    var observed := Score(predictions, acceptable, start) as real / n as real;
    var shuffled := start;
    var scores: seq<real> := [];
    for i := 0 to samples
      invariant |draws| == i && Scorable(predictions, acceptable, draws)
      invariant multiset(shuffled) == multiset(start)
      invariant forall j | 0 <= j < i :: draws[j] in Orders(start)
      invariant scores == Shares(predictions, acceptable, draws)
    {
      shuffled := Shuffle(shuffled);
      OrdersAreRearrangements(start, shuffled);
      StaysWithin(start, shuffled, n);
      OneMoreDraw(predictions, acceptable, draws, shuffled);
      draws := draws + [shuffled];
      scores := scores + [Score(predictions, acceptable, shuffled) as real / n as real];
    }
    var sorted := Sorted(scores);
    var p := (1 + AtLeast(scores, observed)) as real / (samples + 1) as real;
    UpperTail(predictions, acceptable, draws);
    TailShare(AtLeast(scores, observed), samples, p);
    assert 100.0 * observed / 100.0 == observed;
    r := Some(Report(100.0 * Mean(predictions, acceptable), 100.0 * sorted[(samples - 1) / 40],
                     100.0 * sorted[39 * (samples - 1) / 40], 100.0 * observed, p));
  }

  /** The draws that score no less than the given order. */
  ghost function NoWorse(q: seq<string>, acc: seq<Labels>, draws: seq<seq<nat>>): set<nat>
    requires |q| == |acc| && Scorable(q, acc, draws)
  {
    set i: nat | i < |draws| && Score(q, acc, Positions(|q|)) <= Score(q, acc, draws[i])
  }

  /** Draws that score as much as the given order count towards the upper tail like those that score more, and
      the tail is whole exactly when no draw scores less. */
  lemma {:induction false} UpperTail(q: seq<string>, acc: seq<Labels>, draws: seq<seq<nat>>)
    requires |q| == |acc| > 0 && Scorable(q, acc, draws)
    ensures var given := Score(q, acc, Positions(|q|));
            && AtLeast(Shares(q, acc, draws), given as real / |q| as real) == |NoWorse(q, acc, draws)|
            && (|NoWorse(q, acc, draws)| == |draws| <==>
                  forall i | 0 <= i < |draws| :: given <= Score(q, acc, draws[i]))
  {
    hide Score, AtLeast;
    var given, shares, n := Score(q, acc, Positions(|q|)), Shares(q, acc, draws), |q| as real;
    var bar, noWorse, all := given as real / n, NoWorse(q, acc, draws), Indexes(|draws|);
    AtLeastIsCount(shares, bar);
    forall i: nat | i < |draws| ensures shares[i] >= bar <==> i in noWorse {
      ShareOrder(given, Score(q, acc, draws[i]), n);
    }
    assert noWorse == set i: nat | i < |shares| && shares[i] >= bar;
    WholeIsAll(noWorse, all);
    if noWorse == all {
      forall i | 0 <= i < |draws| ensures given <= Score(q, acc, draws[i]) {
        assert i in all;
      }
    }
  }

  lemma ShareOrder(a: nat, b: nat, n: real)
    requires n > 0.0
    ensures b as real / n >= a as real / n <==> a <= b
  {}

  lemma TailShare(c: nat, m: nat, p: real)
    requires p == (1 + c) as real / (m + 1) as real
    ensures p * (m + 1) as real == (1 + c) as real && (p == 1.0 <==> c == m)
  {
    Cancel((1 + c) as real, (m + 1) as real);
  }

  ghost function Indexes(m: nat): (s: set<nat>)
    ensures |s| == m && forall i: nat :: i in s <==> i < m
  {
    if m == 0 then {} else Indexes(m - 1) + {m - 1}
  }

  lemma WholeIsAll<T>(a: set<T>, b: set<T>)
    requires a <= b
    ensures |a| == |b| <==> a == b
  {
    assert b == a + (b - a);
  }

  lemma NothingDrawn(q: seq<string>, acc: seq<Labels>)
    ensures Scorable(q, acc, []) && (q != [] ==> Shares(q, acc, []) == [])
  {}

  lemma OneMoreDraw(q: seq<string>, acc: seq<Labels>, draws: seq<seq<nat>>, t: seq<nat>)
    requires q != [] && Scorable(q, acc, draws) && |t| == |q| && Within(t, |acc|)
    ensures Scorable(q, acc, draws + [t])
    ensures Shares(q, acc, draws + [t]) == Shares(q, acc, draws) + [Score(q, acc, t) as real / |q| as real]
  {
    hide Score;
  }

  lemma StaysWithin(s: seq<nat>, t: seq<nat>, n: nat)
    requires Within(s, n) && multiset(t) == multiset(s)
    ensures |t| == |s| && Within(t, n)
  {
    assert |multiset(t)| == |multiset(s)|;
    forall i | 0 <= i < |t| ensures t[i] < n {
      assert t[i] in multiset(s);
    }
  }

  /** How many of the places from `i` on lie between `a` and `b`. */
  function Span(i: int, a: int, b: int): int {
    Max(0, b - Max(i, a) + 1)
  }

  lemma {:induction false} InsideSpan(s: seq<real>, lo: real, hi: real, a: nat, b: nat, i: nat)
    requires a <= b < |s| && i <= |s|
    requires forall k | a <= k <= b :: lo <= s[k] <= hi
    ensures Inside(s[i..], lo, hi) >= Span(i, a, b)
    ensures (forall k | 0 <= k < |s| && !(a <= k <= b) :: !(lo <= s[k] <= hi)) ==>
              Inside(s[i..], lo, hi) == Span(i, a, b)
    decreases |s| - i
  {
    if i == |s| {
    } else {
      assert s[i..][1..] == s[i + 1..] && s[i..][0] == s[i];
      InsideSpan(s, lo, hi, a, b, i + 1);
    }
  }

  /** The bounds enclose at least this many of the sampled scores, and no more when all scores differ. */
  lemma {:induction false} BoundsEnclose(s: seq<real>)
    requires s != [] && Ascending(s)
    ensures var (a, b) := (LowPlace(|s|), HighPlace(|s|));
            && Inside(s, s[a], s[b]) >= b - a + 1
            && ((forall i, j | 0 <= i < j < |s| :: s[i] < s[j]) ==> Inside(s, s[a], s[b]) == b - a + 1)
  {
    var a, b := LowPlace(|s|), HighPlace(|s|);
    forall k | a <= k <= b ensures s[a] <= s[k] <= s[b] {
      AscendingOrder(s, a, k);
      AscendingOrder(s, k, b);
    }
    InsideSpan(s, s[a], s[b], a, b, 0);
    assert s[0..] == s;
  }

  ghost predicate HoldsMost(s: seq<real>)
    requires s != [] && Ascending(s)
  {
    20 * Inside(s, s[LowPlace(|s|)], s[HighPlace(|s|)]) >= 19 * |s|
  }

  lemma EnoughPlacesIff(m: nat)
    requires m > 0
    ensures 20 * (HighPlace(m) - LowPlace(m) + 1) >= 19 * m <==> (m - 1) % 40 == 0 || (m - 1) % 40 >= 19
  {
    var q, r := (m - 1) / 40, (m - 1) % 40;
    assert m == 40 * q + r + 1 && HighPlace(m) == 39 * q + 39 * r / 40;
    assert 39 * r / 40 == if r == 0 then 0 else r - 1;
  }

  /** Orders that a run of the sampling may draw. */
  ghost predicate Drawn(q: seq<string>, acc: seq<Labels>, draws: seq<seq<nat>>) {
    && |q| == |acc| > 0 && Scorable(q, acc, draws)
    && forall i | 0 <= i < |draws| :: draws[i] in Orders(Positions(|q|))
  }

  /** Whatever the inputs and whatever is drawn, the bounds reported for `m` samples enclose 95% of them. */
  ghost predicate AlwaysHoldsMost(m: nat)
    requires m > 0
  {
    forall q, acc, draws | Drawn(q, acc, draws) && |draws| == m :: HoldsMost(Sorted(Shares(q, acc, draws)))
  }

  // A run whose samples all score differently: two classes of `h` predictions each, and orders that deal `k`
  // label sets of either class to the other.

  function TwoClasses(h: nat): (q: seq<string>)
    ensures |q| == 2 * h
  {
    seq(2 * h, i => if i < h then "a" else "b")
  }

  function TwoLabels(h: nat): (acc: seq<Labels>)
    ensures |acc| == 2 * h
  {
    seq(2 * h, i => if i < h then ["a"] else ["b"])
  }

  function Exchanged(h: nat, k: nat): (t: seq<nat>)
    requires k <= h
    ensures |t| == 2 * h && Within(t, 2 * h)
  {
    seq(2 * h, i requires 0 <= i < 2 * h => if i < k then h + i else if h <= i < h + k then i - h else i)
  }

  lemma {:induction false} ExchangedIsOrder(h: nat, k: nat)
    requires k <= h
    ensures multiset(Exchanged(h, k)) == multiset(Positions(2 * h))
  {
    if k == 0 {
      assert Exchanged(h, 0) == Positions(2 * h);
    } else {
      ExchangedIsOrder(h, k - 1);
      var t, i, j := Exchanged(h, k - 1), k - 1, h + k - 1;
      assert Exchanged(h, k) == t[i := t[j]][j := t[i]];
    }
  }

  /** What the places from `j` on score: every one of them but the exchanged. */
  function ExchangedScore(h: nat, k: nat, j: nat): int {
    (2 * h - j) - Max(0, k - j) - (if j < h then k else Max(0, h + k - j))
  }

  lemma {:induction false} ExchangedScores(h: nat, k: nat, j: nat)
    requires k <= h && j <= 2 * h
    ensures Score(TwoClasses(h)[j..], TwoLabels(h), Exchanged(h, k)[j..]) == ExchangedScore(h, k, j)
    decreases 2 * h - j
  {
    var q, acc, t := TwoClasses(h), TwoLabels(h), Exchanged(h, k);
    if j == 2 * h {
    } else {
      ExchangedScores(h, k, j + 1);
      assert q[j..][1..] == q[j + 1..] && t[j..][1..] == t[j + 1..];
      ClassesMeet(h, j, t[j]);
    }
  }

  lemma ClassesMeet(h: nat, i: nat, j: nat)
    requires i < 2 * h && j < 2 * h
    ensures Member(TwoClasses(h)[i], TwoLabels(h)[j]) <==> (i < h <==> j < h)
  {
    assert "a"[0] != "b"[0];
  }

  /** `h + 1` samples of that run, worst first. */
  function Climbing(h: nat): (draws: seq<seq<nat>>)
    ensures |draws| == h + 1
  {
    seq(h + 1, j requires 0 <= j < h + 1 => Exchanged(h, h - j))
  }

  lemma ClimbingIsDrawn(h: nat)
    requires h > 0
    ensures Drawn(TwoClasses(h), TwoLabels(h), Climbing(h))
  {
    hide Exchanged, Orders, TwoClasses, TwoLabels;
    var draws := Climbing(h);
    assert Scorable(TwoClasses(h), TwoLabels(h), draws) by {
      forall i | 0 <= i < |draws| ensures |draws[i]| == 2 * h && Within(draws[i], 2 * h) {
        assert draws[i] == Exchanged(h, h - i);
      }
    }
    forall i | 0 <= i < |draws| ensures draws[i] in Orders(Positions(2 * h)) {
      ExchangedIsOrder(h, h - i);
      OrdersAreRearrangements(Positions(2 * h), draws[i]);
    }
  }

  lemma ClimbingClimbs(h: nat)
    requires h > 0 && Scorable(TwoClasses(h), TwoLabels(h), Climbing(h))
    ensures forall i, j | 0 <= i < j < h + 1 ::
              var s := Shares(TwoClasses(h), TwoLabels(h), Climbing(h)); s[i] < s[j]
  {
    hide Score, Exchanged;
    var q, acc, draws := TwoClasses(h), TwoLabels(h), Climbing(h);
    var s := Shares(q, acc, draws);
    forall i | 0 <= i < h + 1 ensures s[i] == (2 * i) as real / (2 * h) as real {
      ExchangedScores(h, h - i, 0);
      assert q[0..] == q && draws[i][0..] == draws[i];
    }
    forall i, j | 0 <= i < j < h + 1 ensures s[i] < s[j] {
      LargerShare((2 * i) as real, (2 * j) as real, (2 * h) as real);
    }
  }

  lemma LargerShare(a: real, b: real, n: real)
    requires n > 0.0 && a < b
    ensures a / n < b / n
  {}

  lemma {:induction false} SortedIsItself(s: seq<real>)
    requires Ascending(s)
    ensures Sorted(s) == s
  {
    if s == [] {
    } else {
      SortedIsItself(s[1..]);
      assert s == [s[0]] + s[1..];
    }
  }

  /** The bounds are sure to enclose 95% of the sampled scores, whatever is scored and drawn, exactly for these
      sample counts, among them the default 10000. */
  lemma {:induction false} NinetyFivePercentIff(m: nat)
    requires m > 0
    ensures AlwaysHoldsMost(m) <==> (m - 1) % 40 == 0 || (m - 1) % 40 >= 19
  {
    hide Inside, LowPlace, HighPlace, Sorted, Shares, Orders;
    EnoughPlacesIff(m);
    forall q, acc, draws | Drawn(q, acc, draws) && |draws| == m
      ensures 20 * (HighPlace(m) - LowPlace(m) + 1) >= 19 * m ==> HoldsMost(Sorted(Shares(q, acc, draws)))
    {
      BoundsEnclose(Sorted(Shares(q, acc, draws)));
    }
    if m > 1 {
      var q, acc, draws := TwoClasses(m - 1), TwoLabels(m - 1), Climbing(m - 1);
      ClimbingIsDrawn(m - 1);
      ClimbingClimbs(m - 1);
      var s := Shares(q, acc, draws);
      SortedIsItself(s);
      BoundsEnclose(s);
      assert HoldsMost(Sorted(s)) <==> 20 * (HighPlace(m) - LowPlace(m) + 1) >= 19 * m;
    }
  }
}
