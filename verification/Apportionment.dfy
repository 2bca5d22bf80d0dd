/** Drawing a sample that keeps each stratum's share of the pool, by largest remainders. */
module Apportionment {
  import opened Arithmetic
  import opened Prelude

  /** A row is told apart by `ident`; of a stratum's name only equality and order matter. */
  datatype Row = Row(ident: int, stratum: int)

  datatype Remainder = Remainder(rest: nat, key: int)

  // ---- Strata -------------------------------------------------------------

  function RowsOf(rows: seq<Row>, k: int): (r: seq<Row>)
    ensures forall x | x in r :: x.stratum == k
  {
    if rows == [] then []
    else
      var last := rows[|rows| - 1];
      RowsOf(rows[..|rows| - 1], k) + if last.stratum == k then [last] else []
  }

  function Count(rows: seq<Row>, k: int): nat {
    |RowsOf(rows, k)|
  }

  lemma RowsOfAppend(rows: seq<Row>, x: Row, k: int)
    ensures RowsOf(rows + [x], k) == RowsOf(rows, k) + if x.stratum == k then [x] else []
  {
    assert (rows + [x])[..|rows|] == rows;
  }

  lemma {:induction false} CountConcat(a: seq<Row>, b: seq<Row>, k: int)
    ensures Count(a + b, k) == Count(a, k) + Count(b, k)
  {
    if b == [] {
      assert a + b == a;
    } else {
      var x := b[|b| - 1];
      assert a + b == (a + b[..|b| - 1]) + [x];
      CountConcat(a, b[..|b| - 1], k);
      RowsOfAppend(a + b[..|b| - 1], x, k);
    }
  }

  lemma {:induction false} CountUniform(s: seq<Row>, home: int, k: int)
    requires forall x | x in s :: x.stratum == home
    ensures Count(s, k) == if k == home then |s| else 0
  {
    if s == [] {
    } else {
      assert forall x | x in s[..|s| - 1] :: x in s;
      assert s[|s| - 1] in s;
      CountUniform(s[..|s| - 1], home, k);
    }
  }

  lemma {:induction false} RowsOfHolds(rows: seq<Row>, x: Row)
    ensures multiset(RowsOf(rows, x.stratum))[x] == multiset(rows)[x]
  {
    if rows == [] {
    } else {
      assert rows == rows[..|rows| - 1] + [rows[|rows| - 1]];
      RowsOfHolds(rows[..|rows| - 1], x);
    }
  }

  predicate Covers(m: map<int, int>, keys: seq<int>) {
    forall i | 0 <= i < |keys| :: keys[i] in m
  }

  /** Summing a map of numbers over a list of its keys. */
  function SumOver(keys: seq<int>, m: map<int, int>): int
    requires Covers(m, keys)
  {
    if keys == [] then 0 else m[keys[0]] + SumOver(keys[1..], m)
  }

  /** Changing one key's number changes the sum by as much, and by nothing when the key is not summed. */
  lemma {:induction false} SumOverUpdate(keys: seq<int>, m: map<int, int>, k: int, v: int)
    requires Distinct(keys) && Covers(m, keys)
    ensures k !in keys ==> SumOver(keys, m[k := v]) == SumOver(keys, m)
    ensures k in keys ==> k in m && SumOver(keys, m[k := v]) == SumOver(keys, m) + v - m[k]
  {
    if keys == [] {
    } else {
      assert keys == [keys[0]] + keys[1..];
      assert keys[0] !in keys[1..];
      SumOverUpdate(keys[1..], m, k, v);
    }
  }

  // ---- Remainders in order --------------------------------------------------

  /** The order `(-remainder, name)`: larger remainders first, ties by name. */
  predicate Before(a: Remainder, b: Remainder) {
    a.rest > b.rest || (a.rest == b.rest && a.key < b.key)
  }

  predicate Ranked(s: seq<Remainder>) {
    forall i, j | 0 <= i < j < |s| :: Before(s[i], s[j])
  }

  predicate DistinctKeys(s: seq<Remainder>) {
    forall i, j | 0 <= i < j < |s| :: s[i].key != s[j].key
  }

  function SumRest(s: seq<Remainder>): nat {
    if s == [] then 0 else s[0].rest + SumRest(s[1..])
  }

  function Positive(s: seq<Remainder>): (n: nat)
    ensures n <= |s|
  {
    if s == [] then 0 else (if s[0].rest > 0 then 1 else 0) + Positive(s[1..])
  }

  function Insert(r: Remainder, s: seq<Remainder>): (t: seq<Remainder>)
    ensures multiset(t) == multiset(s) + multiset{r}
    ensures SumRest(t) == SumRest(s) + r.rest
  {
    if s == [] || Before(r, s[0]) then
      assert ([r] + s)[1..] == s;
      [r] + s
    else
      var u := Insert(r, s[1..]);
      assert s == [s[0]] + s[1..];
      assert ([s[0]] + u)[1..] == u;
      [s[0]] + u
  }

  lemma {:induction false} InsertKeepsRanked(r: Remainder, s: seq<Remainder>)
    requires Ranked(s) && forall x | x in s :: x.key != r.key
    ensures Ranked(Insert(r, s))
  {
    if s == [] || Before(r, s[0]) {
    } else {
      InsertKeepsRanked(r, s[1..]);
      var u := Insert(r, s[1..]);
      forall x | x in u ensures Before(s[0], x) {
        assert x in multiset(u);
        if x != r {
          assert x in s[1..];
          var i :| 1 <= i < |s| && s[i] == x;
        }
      }
    }
  }

  function Sorted(s: seq<Remainder>): (t: seq<Remainder>)
    ensures multiset(t) == multiset(s)
    ensures SumRest(t) == SumRest(s)
  {
    if s == [] then [] else
      assert s == [s[0]] + s[1..];
      Insert(s[0], Sorted(s[1..]))
  }

  lemma {:induction false} SortRanks(s: seq<Remainder>)
    requires DistinctKeys(s)
    ensures Ranked(Sorted(s))
  {
    if s == [] {
    } else {
      SortRanks(s[1..]);
      var t := Sorted(s[1..]);
      forall x | x in t ensures x.key != s[0].key {
        assert x in multiset(t);
        assert x in s[1..];
        var i :| 1 <= i < |s| && s[i] == x;
      }
      InsertKeepsRanked(s[0], t);
    }
  }

  /** Every remainder is short of one whole seat, so the seats they make up are fewer than the remainders. */
  lemma {:induction false} SeatsNeedRemainders(s: seq<Remainder>, total: nat)
    requires forall x | x in s :: x.rest < total
    ensures SumRest(s) <= Positive(s) * (total - 1)
  {
    if s == [] {
    } else {
      assert s[0] in s && forall x | x in s[1..] :: x in s;
      SeatsNeedRemainders(s[1..], total);
      Distribute(1, Positive(s[1..]), total - 1);
    }
  }

  lemma {:induction false} PositiveComeFirst(s: seq<Remainder>, i: nat)
    requires Ranked(s) && i < Positive(s)
    ensures s[i].rest > 0
  {
    if i == 0 {
      if s[0].rest == 0 {
        NonePositive(s);
      }
    } else {
      PositiveComeFirst(s[1..], i - 1);
    }
  }

  lemma {:induction false} NonePositive(s: seq<Remainder>)
    requires forall x | x in s :: x.rest == 0
    ensures Positive(s) == 0
  {
    if s == [] {
    } else {
      assert s[0] in s && forall x | x in s[1..] :: x in s;
      NonePositive(s[1..]);
    }
  }

  // ---- Quotas ---------------------------------------------------------------

  /** The whole seats in the exact share `limit * size / total`. */
  function Floor(limit: nat, size: nat, total: nat): nat
    requires total > 0
  {
    limit * size / total
  }

  /** What is left of the exact share, as a numerator over `total`. */
  function Rest(limit: nat, size: nat, total: nat): (r: nat)
    requires total > 0
    ensures r < total && Floor(limit, size, total) * total + r == limit * size
  {
    limit * size % total
  }

  /** The exact share rounded up. */
  function Ceiling(limit: nat, size: nat, total: nat): nat
    requires total > 0
  {
    Floor(limit, size, total) + if Rest(limit, size, total) > 0 then 1 else 0
  }

  predicate Sizes(keys: seq<int>, sizes: map<int, int>) {
    Distinct(keys) && Covers(sizes, keys) && forall i | 0 <= i < |keys| :: sizes[keys[i]] > 0
  }

  /** Every key holds its whole seats, with its remainder set down beside it. */
  predicate Divided(keys: seq<int>, sizes: map<int, int>, quota: map<int, int>, rests: seq<Remainder>,
                    limit: nat, total: nat)
    requires Sizes(keys, sizes) && total > 0
  {
    && |rests| == |keys| && Covers(quota, keys)
    && forall i | 0 <= i < |keys| ::
         quota[keys[i]] == Floor(limit, sizes[keys[i]], total) &&
         rests[i] == Remainder(Rest(limit, sizes[keys[i]], total), keys[i])
  }

  /** Whole seats and remainders together are every seat there is. */
  lemma {:induction false} SharesAddUp(keys: seq<int>, sizes: map<int, int>, quota: map<int, int>,
                                       rests: seq<Remainder>, limit: nat, total: nat)
    requires Sizes(keys, sizes) && total > 0 && Divided(keys, sizes, quota, rests, limit, total)
    ensures SumOver(keys, quota) * total + SumRest(rests) == limit * SumOver(keys, sizes)
  {
    hide Floor, Rest;
    if keys == [] {
    } else {
      SharesAddUp(keys[1..], sizes, quota, rests[1..], limit, total);
      var size := sizes[keys[0]];
      var whole, left := Floor(limit, size, total), Rest(limit, size, total);
      Distribute(whole, SumOver(keys[1..], quota), total);
      Distribute(size, SumOver(keys[1..], sizes), limit);
    }
  }

  /** The seats still to hand out never outnumber the strata that have a remainder. */
  lemma ShortIsCovered(rests: seq<Remainder>, short: int, total: nat)
    requires total > 0 && forall x | x in rests :: x.rest < total
    requires SumRest(rests) == short * total
    ensures 0 <= short <= Positive(rests)
  {
    SeatsNeedRemainders(rests, total);
    var p := Positive(rests);
    if short < 0 {
      Scale(short, -1, total);
    } else if short > p {
      Scale(p + 1, short, total);
      Distribute(p, 1, total);
      Distribute(total - 1, 1, p);
    }
  }

  /** A pool larger than the limit leaves every stratum room for one seat above its whole share. */
  lemma RoomForOneMore(limit: nat, size: nat, total: nat)
    requires limit < total && size > 0
    ensures Floor(limit, size, total) < size
  {
    hide Floor, Rest;
    var whole, left := Floor(limit, size, total), Rest(limit, size, total);
    Scale(limit + 1, total, size);
    Distribute(limit, 1, size);
    if whole >= size {
      Scale(size, whole, total);
      assert false;
    }
  }

  /** A larger stratum has more whole seats, or as many and no smaller a remainder. */
  lemma {:induction false} LargerHasMore(limit: nat, a: nat, b: nat, total: nat)
    requires total > 0 && a >= b
    ensures Floor(limit, a, total) >= Floor(limit, b, total)
    ensures Floor(limit, a, total) == Floor(limit, b, total) ==> Rest(limit, a, total) >= Rest(limit, b, total)
    ensures Floor(limit, a, total) == Floor(limit, b, total) && limit > 0 && a > b ==>
              Rest(limit, a, total) > Rest(limit, b, total)
  {
    hide Floor, Rest;
    var fa, fb := Floor(limit, a, total), Floor(limit, b, total);
    var ra, rb := Rest(limit, a, total), Rest(limit, b, total);
    Scale(b, a, limit);
    if a > b {
      Scale(b + 1, a, limit);
      Distribute(b, 1, limit);
    }
    if fa < fb {
      Scale(fa + 1, fb, total);
      Distribute(fa, 1, total);
      assert false;
    }
  }

  /** `s` lists each key once, larger remainders first. */
  ghost predicate Queue(s: seq<Remainder>, keys: seq<int>, sizes: map<int, int>, limit: nat, total: nat)
    requires Sizes(keys, sizes) && total > 0
  {
    && Ranked(s) && DistinctKeys(s)
    && (forall j | 0 <= j < |s| ::
          s[j].key in keys && s[j].key in sizes && sizes[s[j].key] > 0 &&
          s[j].rest == Rest(limit, sizes[s[j].key], total))
    && (forall i | 0 <= i < |keys| :: exists j | 0 <= j < |s| :: s[j].key == keys[i])
  }

  lemma {:induction false} SortingQueues(keys: seq<int>, sizes: map<int, int>, quota: map<int, int>,
                                         rests: seq<Remainder>,
                      limit: nat, total: nat)
    requires Sizes(keys, sizes) && total > 0 && Divided(keys, sizes, quota, rests, limit, total)
    ensures Queue(Sorted(rests), keys, sizes, limit, total)
  {
    hide Floor, Rest, Sorted, Before;
    SortRanks(rests);
    var s := Sorted(rests);
    forall j | 0 <= j < |s|
      ensures s[j].key in keys && s[j].key in sizes && sizes[s[j].key] > 0 &&
              s[j].rest == Rest(limit, sizes[s[j].key], total)
    {
      assert s[j] in multiset(rests);
      var i :| 0 <= i < |rests| && rests[i] == s[j];
      assert s[j].key == keys[i];
    }
    forall i | 0 <= i < |keys| ensures exists j | 0 <= j < |s| :: s[j].key == keys[i] {
      assert rests[i] in multiset(s);
      var j :| 0 <= j < |s| && s[j] == rests[i];
    }
    RankedKeysDiffer(s, sizes, limit, total);
  }

  lemma RankedKeysDiffer(s: seq<Remainder>, sizes: map<int, int>, limit: nat, total: nat)
    requires total > 0 && Ranked(s)
    requires forall j | 0 <= j < |s| ::
               s[j].key in sizes && sizes[s[j].key] > 0 && s[j].rest == Rest(limit, sizes[s[j].key], total)
    ensures DistinctKeys(s)
  {
    forall i, j | 0 <= i < j < |s| ensures s[i].key != s[j].key {
      assert Before(s[i], s[j]);
    }
  }

  /** Stratum `a`'s remainder comes before stratum `b`'s. */
  predicate Outranks(a: int, sizeA: nat, b: int, sizeB: nat, limit: nat, total: nat)
    requires total > 0
  {
    Before(Remainder(Rest(limit, sizeA, total), a), Remainder(Rest(limit, sizeB, total), b))
  }

  /** What the division of the seats promises: all of them given, each share rounded one way or the other,
      no stratum beyond its size, none behind a smaller one (nor behind an equal one of a later name), and
      no share rounded up while a larger remainder is rounded down. */
  predicate Apportioned(keys: seq<int>, sizes: map<int, int>, quota: map<int, int>, limit: nat, total: nat)
    requires Sizes(keys, sizes) && total > 0
  {
    && Covers(quota, keys) && SumOver(keys, quota) == limit
    && (forall i | 0 <= i < |keys| ::
          Floor(limit, sizes[keys[i]], total) <= quota[keys[i]] <= Ceiling(limit, sizes[keys[i]], total) &&
          quota[keys[i]] <= sizes[keys[i]])
    && (forall i, j | 0 <= i < |keys| && 0 <= j < |keys| && Precedes(keys[i], keys[j], sizes) ::
          quota[keys[j]] <= quota[keys[i]])
    && (forall i, j | 0 <= i < |keys| && 0 <= j < |keys| &&
                      Outranks(keys[i], sizes[keys[i]], keys[j], sizes[keys[j]], limit, total) &&
                      quota[keys[j]] > Floor(limit, sizes[keys[j]], total) ::
          quota[keys[i]] > Floor(limit, sizes[keys[i]], total))
  }

  predicate Precedes(a: int, b: int, sizes: map<int, int>)
    requires a in sizes && b in sizes
  {
    sizes[a] > sizes[b] || (sizes[a] == sizes[b] && a < b)
  }

  /** The first `short` keys of the queue hold one seat above their whole share, the others none. */
  ghost predicate Awarded(s: seq<Remainder>, given: nat, quota: map<int, int>, sizes: map<int, int>,
                          limit: nat, total: nat)
    requires total > 0 && forall j | 0 <= j < |s| :: s[j].key in sizes && sizes[s[j].key] > 0
  {
    forall j | 0 <= j < |s| ::
      s[j].key in quota &&
      quota[s[j].key] == Floor(limit, sizes[s[j].key], total) + if j < given then 1 else 0
  }

  lemma {:induction false} AwardsAreFair(s: seq<Remainder>, given: nat, keys: seq<int>, sizes: map<int, int>,
                      quota: map<int, int>, limit: nat, total: nat)
    requires Sizes(keys, sizes) && 0 <= limit < total && Queue(s, keys, sizes, limit, total)
    requires given <= Positive(s) && Awarded(s, given, quota, sizes, limit, total)
    requires Covers(quota, keys) && SumOver(keys, quota) == limit
    ensures Apportioned(keys, sizes, quota, limit, total)
  {
    hide Floor, Rest, SumOver, Positive;
    forall i | 0 <= i < |keys|
      ensures Floor(limit, sizes[keys[i]], total) <= quota[keys[i]] <= Ceiling(limit, sizes[keys[i]], total)
      ensures quota[keys[i]] <= sizes[keys[i]]
    {
      var j :| 0 <= j < |s| && s[j].key == keys[i];
      RoomForOneMore(limit, sizes[keys[i]], total);
      if j < given {
        PositiveComeFirst(s, j);
      }
    }
    forall i, j | 0 <= i < |keys| && 0 <= j < |keys| && Precedes(keys[i], keys[j], sizes)
      ensures quota[keys[j]] <= quota[keys[i]]
    {
      var a :| 0 <= a < |s| && s[a].key == keys[i];
      var b :| 0 <= b < |s| && s[b].key == keys[j];
      FairPair(s, a, b, given, sizes, quota, limit, total);
    }
    forall i, j | 0 <= i < |keys| && 0 <= j < |keys| &&
                  Outranks(keys[i], sizes[keys[i]], keys[j], sizes[keys[j]], limit, total) &&
                  quota[keys[j]] > Floor(limit, sizes[keys[j]], total)
      ensures quota[keys[i]] > Floor(limit, sizes[keys[i]], total)
    {
      var a :| 0 <= a < |s| && s[a].key == keys[i];
      var b :| 0 <= b < |s| && s[b].key == keys[j];
      EarlierIsServedFirst(s, a, b, given);
    }
  }

  /** In a ranked queue whoever comes before a served entry is served. */
  lemma EarlierIsServedFirst(s: seq<Remainder>, a: nat, b: nat, given: nat)
    requires Ranked(s) && a < |s| && b < |s| && Before(s[a], s[b]) && b < given
    ensures a < given
  {}

  lemma {:induction false} FairPair(s: seq<Remainder>, a: nat, b: nat, given: nat, sizes: map<int, int>,
                                    quota: map<int, int>,
                 limit: nat, total: nat)
    requires total > 0 && Ranked(s) && a < |s| && b < |s| && given <= Positive(s)
    requires forall j | 0 <= j < |s| ::
               s[j].key in sizes && sizes[s[j].key] > 0 && s[j].rest == Rest(limit, sizes[s[j].key], total)
    requires Awarded(s, given, quota, sizes, limit, total)
    requires Precedes(s[a].key, s[b].key, sizes)
    ensures quota[s[b].key] <= quota[s[a].key]
  {
    hide Floor, Rest, Positive;
    LargerHasMore(limit, sizes[s[a].key], sizes[s[b].key], total);
    NoSeatsNoRest(sizes[s[b].key], total);
    if b < given && given <= a {
      assert Before(s[b], s[a]);
      PositiveComeFirst(s, b);
    }
  }

  lemma NoSeatsNoRest(size: nat, total: nat)
    requires total > 0
    ensures Rest(0, size, total) == 0
  {}

  /** The seats each stratum gets: whole shares, then one more each by largest remainder. */
  method Quotas(keys: seq<int>, sizes: map<int, int>, limit: nat, total: nat) returns (quota: map<int, int>)
    requires Sizes(keys, sizes) && limit < total == SumOver(keys, sizes)
    ensures Apportioned(keys, sizes, quota, limit, total)
  {
    hide Floor, Rest;
    quota := map[];
    var remainders: seq<Remainder> := [];
    for i := 0 to |keys|
      invariant |remainders| == i && forall j | 0 <= j < i :: keys[j] in quota
      invariant forall j | 0 <= j < i ::
                  quota[keys[j]] == Floor(limit, sizes[keys[j]], total) &&
                  remainders[j] == Remainder(Rest(limit, sizes[keys[j]], total), keys[j])
    {
      var size := sizes[keys[i]];
      quota := quota[keys[i] := Floor(limit, size, total)];
      remainders := remainders + [Remainder(Rest(limit, size, total), keys[i])];
    }
    quota := Award(keys, sizes, quota, remainders, limit, total);
  }

  method Award(keys: seq<int>, sizes: map<int, int>, whole: map<int, int>, rests: seq<Remainder>,
               limit: nat, total: nat) returns (quota: map<int, int>)
    requires Sizes(keys, sizes) && limit < total == SumOver(keys, sizes)
    requires Divided(keys, sizes, whole, rests, limit, total)
    ensures Apportioned(keys, sizes, quota, limit, total)
  {
    hide Floor, Rest, Sorted, Positive, SumRest, SumOver, Ranked, Apportioned;
    quota := whole;
    var remainders := Sorted(rests);
    var short := limit - SumOver(keys, quota);
    SharesAddUp(keys, sizes, whole, rests, limit, total);
    Distribute(short, SumOver(keys, whole), total);
    SortingQueues(keys, sizes, whole, rests, limit, total);
    ghost var seats := short;
    assert forall x | x in remainders :: x.rest < total by {
      forall x | x in remainders ensures x.rest < total {
        var j :| 0 <= j < |remainders| && remainders[j] == x;
      }
    }
    ShortIsCovered(remainders, short, total);
    StartsWhole(remainders, keys, sizes, whole, rests, limit, total);
    var i := 0;
    while i < |remainders|
      invariant 0 <= i <= |remainders| && short == seats - i && short >= 0
      invariant Covers(quota, keys) && SumOver(keys, quota) == limit - short
      invariant Awarded(remainders, i, quota, sizes, limit, total)
    {
      if short <= 0 {
        break;
      }
      var key := remainders[i].key;
      RoomForOneMore(limit, sizes[key], total);
      if quota[key] < sizes[key] {
        SumOverUpdate(keys, quota, key, quota[key] + 1);
        quota := quota[key := quota[key] + 1];
        short := short - 1;
      }
      i := i + 1;
    }
    AwardsAreFair(remainders, i, keys, sizes, quota, limit, total);
  }

  lemma StartsWhole(s: seq<Remainder>, keys: seq<int>, sizes: map<int, int>, quota: map<int, int>,
                    rests: seq<Remainder>, limit: nat, total: nat)
    requires Sizes(keys, sizes) && total > 0 && Divided(keys, sizes, quota, rests, limit, total)
    requires Queue(s, keys, sizes, limit, total)
    ensures Awarded(s, 0, quota, sizes, limit, total)
  {
    hide Floor, Rest, Ranked;
    forall j | 0 <= j < |s|
      ensures s[j].key in quota && quota[s[j].key] == Floor(limit, sizes[s[j].key], total)
    {
      var i :| 0 <= i < |keys| && keys[i] == s[j].key;
      assert keys[i] in quota;
    }
  }

  // ---- The sample -----------------------------------------------------------

  predicate Ascending(keys: seq<int>) {
    forall i | 0 < i < |keys| :: keys[i - 1] < keys[i]
  }

  lemma {:induction false} AscendingOrder(keys: seq<int>, i: nat, j: nat)
    requires Ascending(keys) && i < j < |keys|
    ensures keys[i] < keys[j]
    decreases j
  {
    if i < j - 1 {
      AscendingOrder(keys, i, j - 1);
    }
  }

  function InsertKey(k: int, s: seq<int>): (t: seq<int>)
    requires Ascending(s) && k !in s
    ensures Ascending(t) && t != [] && t[0] == if s == [] || k < s[0] then k else s[0]
    ensures forall x :: x in t <==> x == k || x in s
  {
    if s == [] || k < s[0] then [k] + s
    else
      assert s == [s[0]] + s[1..];
      [s[0]] + InsertKey(k, s[1..])
  }

  method SortedKeys(names: set<int>) returns (keys: seq<int>)
    ensures Ascending(keys) && forall k :: k in keys <==> k in names
  {
    keys := [];
    var left := names;
    while left != {}
      invariant Ascending(keys)
      invariant left <= names
      invariant forall k :: k in keys <==> k in names && k !in left
      decreases left
    {
      if forall k :: k !in left {
        assert false;
      }
      var k :| k in left;
      keys := InsertKey(k, keys);
      left := left - {k};
    }
  }

  method Buckets(rows: seq<Row>) returns (buckets: map<int, seq<Row>>)
    ensures forall k :: k in buckets <==> Count(rows, k) > 0
    ensures forall k | k in buckets :: buckets[k] == RowsOf(rows, k)
  {
    buckets := map[];
    for i := 0 to |rows|
      invariant forall k :: k in buckets <==> Count(rows[..i], k) > 0
      invariant forall k | k in buckets :: buckets[k] == RowsOf(rows[..i], k)
    {
      var row := rows[i];
      assert rows[..i + 1] == rows[..i] + [row];
      forall k ensures RowsOf(rows[..i + 1], k) == RowsOf(rows[..i], k) + if row.stratum == k then [row] else [] {
        RowsOfAppend(rows[..i], row, k);
      }
      var before := if row.stratum in buckets then buckets[row.stratum] else [];
      buckets := buckets[row.stratum := before + [row]];
    }
    assert rows[..|rows|] == rows;
  }

  ghost function CountMap(rows: seq<Row>, names: set<int>): map<int, int> {
    map k | k in names :: Count(rows, k)
  }

  lemma {:induction false} StrataMakeThePool(rows: seq<Row>, keys: seq<int>, names: set<int>)
    requires Distinct(keys) && forall i | 0 <= i < |keys| :: keys[i] in names
    requires forall x | x in rows :: x.stratum in names && x.stratum in keys
    ensures SumOver(keys, CountMap(rows, names)) == |rows|
  {
    hide SumOver, RowsOf;
    if rows == [] {
      EmptyPool(keys, names);
    } else {
      var front, x := rows[..|rows| - 1], rows[|rows| - 1];
      assert rows == front + [x];
      StrataMakeThePool(front, keys, names);
      SumOverUpdate(keys, CountMap(front, names), x.stratum, Count(front, x.stratum) + 1);
      OneMoreRow(front, x, names);
    }
  }

  lemma EmptyPool(keys: seq<int>, names: set<int>)
    requires forall i | 0 <= i < |keys| :: keys[i] in names
    ensures SumOver(keys, CountMap([], names)) == 0
  {
    AllZero(keys, CountMap([], names));
  }

  lemma OneMoreRow(rows: seq<Row>, x: Row, names: set<int>)
    requires x.stratum in names
    ensures CountMap(rows + [x], names) == CountMap(rows, names)[x.stratum := Count(rows, x.stratum) + 1]
  {
    forall k | k in names ensures Count(rows + [x], k) == Count(rows, k) + if k == x.stratum then 1 else 0 {
      RowsOfAppend(rows, x, k);
    }
  }

  lemma {:induction false} AllZero(keys: seq<int>, m: map<int, int>)
    requires Covers(m, keys) && forall k | k in m :: m[k] == 0
    ensures SumOver(keys, m) == 0
  {
    if keys == [] {
    } else {
      AllZero(keys[1..], m);
    }
  }

  /** What a proportional sample is, said of the rows alone. */
  ghost predicate Proportional(rows: seq<Row>, limit: nat, sample: seq<Row>)
    requires |rows| > 0
  {
    && |sample| == limit
    && multiset(sample) <= multiset(rows)
    && (forall k :: Floor(limit, Count(rows, k), |rows|) <= Count(sample, k) <= Ceiling(limit, Count(rows, k), |rows|))
    && (forall a, b | Count(rows, a) > Count(rows, b) || (Count(rows, a) == Count(rows, b) && a < b) ::
          Count(sample, b) <= Count(sample, a))
    && (forall a, b | Outranks(a, Count(rows, a), b, Count(rows, b), limit, |rows|) &&
                      Count(sample, b) > Floor(limit, Count(rows, b), |rows|) ::
          Count(sample, a) > Floor(limit, Count(rows, a), |rows|))
  }

  /** The rows of the pool that were not picked. */
  function Others(rows: seq<Row>, picked: seq<Row>): seq<Row> {
    if rows == [] then []
    else
      var last := rows[|rows| - 1];
      Others(rows[..|rows| - 1], picked) +
      if forall x | x in picked :: x.ident != last.ident then [last] else []
  }

  /** A row is left over exactly when no picked row is that very row, and then as often as it stands in the pool. */
  lemma {:induction false} OthersAreUnpicked(rows: seq<Row>, picked: seq<Row>, row: Row)
    ensures multiset(Others(rows, picked))[row] ==
              if exists x :: x in picked && x.ident == row.ident then 0 else multiset(rows)[row]
  {
    if rows != [] {
      OthersAreUnpicked(rows[..|rows| - 1], picked, row);
      assert rows == rows[..|rows| - 1] + [rows[|rows| - 1]];
    }
  }

  /** Fill a short pick from the rows not picked yet, as far as they reach, and never go past the limit. */
  method Refill(rows: seq<Row>, picked: seq<Row>, limit: nat) returns (sample: seq<Row>)
    ensures |picked| >= limit ==> sample == picked[..limit]
    ensures |picked| < limit ==>
              && |sample| == Min(limit, |picked| + |Others(rows, picked)|)
              && picked <= sample && multiset(sample[|picked|..]) <= multiset(Others(rows, picked))
  {
    sample := picked;
    if |picked| < limit {
      var rest: seq<Row> := [];
      for i := 0 to |rows|
        invariant rest == Others(rows[..i], picked)
      {
        assert rows[..i + 1][..i] == rows[..i];
        if forall x | x in picked :: x.ident != rows[i].ident {
          rest := rest + [rows[i]];
        }
      }
      assert rows[..|rows|] == rows;
      var fill := Shuffle(rest);
      var take := Min(limit - |picked|, |fill|);
      PrefixIsPart(fill, take);
      sample := picked + fill[..take];
      assert sample[|picked|..] == fill[..take] && sample[..|sample|] == sample;
      assert multiset(fill[..take]) <= multiset(Others(rows, picked));
    }
    sample := sample[..Min(limit, |sample|)];
  }

  lemma PrefixIsPart(s: seq<Row>, n: nat)
    requires n <= |s|
    ensures multiset(s[..n]) <= multiset(s)
  {
    assert s == s[..n] + s[n..];
  }

  /** One stratum's pick keeps to the pool, as long as no other pick touched that stratum. */
  lemma PickFromOne(rows: seq<Row>, picked: seq<Row>, bucket: seq<Row>, k: int, q: nat)
    requires multiset(bucket) == multiset(RowsOf(rows, k)) && q <= |bucket|
    requires multiset(picked) <= multiset(rows) && forall x | x in picked :: x.stratum != k
    ensures multiset(picked + bucket[..q]) <= multiset(rows)
    ensures forall x | x in bucket[..q] :: x.stratum == k
  {
    var piece := bucket[..q];
    assert bucket == piece + bucket[q..];
    forall x | x in bucket ensures x.stratum == k {
      assert x in multiset(bucket);
      assert x in RowsOf(rows, k);
    }
    forall x ensures multiset(picked + piece)[x] <= multiset(rows)[x] {
      if x.stratum == k {
        RowsOfHolds(rows, x);
        assert x !in picked;
      } else {
        assert x !in piece;
      }
    }
  }

  /** Draw `limit` rows so that each stratum keeps its share of the pool. */
  method ProportionalSample(rows: seq<Row>, limit: nat) returns (sample: seq<Row>)
    ensures |rows| <= limit ==> sample == rows
    ensures |rows| > limit ==> Proportional(rows, limit, sample)
  {
    hide Proportional, RowsOf, SumOver, Apportioned;
    if |rows| <= limit {
      return rows;
    }
    var buckets := Buckets(rows);
    var keys := SortedKeys(buckets.Keys);
    var sizes: map<int, int> := map k | k in buckets :: |buckets[k]|;
    PoolIsCounted(rows, keys, buckets);
    assert forall i | 0 <= i < |keys| :: keys[i] in keys;
    for i := 0 to |keys|
      invariant buckets.Keys == sizes.Keys
      invariant forall k | k in buckets :: multiset(buckets[k]) == multiset(RowsOf(rows, k))
    {
      assert keys[i] in buckets;
      var shuffled := Shuffle(buckets[keys[i]]);
      buckets := buckets[keys[i] := shuffled];
    }
    var quota := Quotas(keys, sizes, limit, |rows|);
    var picked := Pick(rows, keys, buckets, sizes, quota, limit);
    sample := Refill(rows, picked, limit);
    assert sample == picked;
  }

  lemma {:induction false} PoolIsCounted(rows: seq<Row>, keys: seq<int>, buckets: map<int, seq<Row>>)
    requires Ascending(keys) && forall k :: k in keys <==> k in buckets
    requires forall k :: k in buckets <==> Count(rows, k) > 0
    requires forall k | k in buckets :: buckets[k] == RowsOf(rows, k)
    ensures var sizes: map<int, int> := map k | k in buckets :: |buckets[k]|;
            Sizes(keys, sizes) && SumOver(keys, sizes) == |rows|
  {
    hide RowsOf, SumOver, Count, Ascending, Distinct;
    AscendingIsDistinct(keys);
    var sizes: map<int, int> := map k | k in buckets :: |buckets[k]|;
    CountsAreSizes(rows, buckets);
    forall i | 0 <= i < |keys| ensures keys[i] in buckets {
      assert keys[i] in keys;
    }
    forall x | x in rows ensures x.stratum in keys {
      HomeIsCounted(rows, x);
    }
    StrataMakeThePool(rows, keys, buckets.Keys);
  }

  lemma AscendingIsDistinct(keys: seq<int>)
    requires Ascending(keys)
    ensures Distinct(keys)
  {
    forall i, j | 0 <= i < j < |keys| ensures keys[i] != keys[j] {
      AscendingOrder(keys, i, j);
    }
  }

  lemma CountsAreSizes(rows: seq<Row>, buckets: map<int, seq<Row>>)
    requires forall k :: k in buckets <==> Count(rows, k) > 0
    requires forall k | k in buckets :: buckets[k] == RowsOf(rows, k)
    ensures (map k | k in buckets :: |buckets[k]|) == CountMap(rows, buckets.Keys)
    ensures forall k | k in buckets :: |buckets[k]| > 0
  {}

  lemma HomeIsCounted(rows: seq<Row>, x: Row)
    requires x in rows
    ensures Count(rows, x.stratum) > 0
  {
    RowsOfHolds(rows, x);
    assert x in multiset(rows);
    assert x in multiset(RowsOf(rows, x.stratum));
  }

  /** `picked` holds exactly the quotas of the first `done` strata, all from the pool. */
  ghost predicate PickedSoFar(rows: seq<Row>, keys: seq<int>, quota: map<int, int>, picked: seq<Row>, done: nat)
    requires done <= |keys| && Covers(quota, keys)
  {
    && multiset(picked) <= multiset(rows)
    && (forall j | 0 <= j < |keys| :: Count(picked, keys[j]) == if j < done then quota[keys[j]] else 0)
    && (forall k | k !in keys :: Count(picked, k) == 0)
  }

  lemma {:induction false} PickStep(rows: seq<Row>, keys: seq<int>, quota: map<int, int>, picked: seq<Row>, done: nat,
                 bucket: seq<Row>)
    requires done < |keys| && Distinct(keys) && Covers(quota, keys)
    requires PickedSoFar(rows, keys, quota, picked, done)
    requires multiset(bucket) == multiset(RowsOf(rows, keys[done])) && 0 <= quota[keys[done]] <= |bucket|
    ensures PickedSoFar(rows, keys, quota, picked + bucket[..quota[keys[done]]], done + 1)
  {
    hide RowsOf;
    var key := keys[done];
    var piece := bucket[..quota[key]];
    forall x | x in picked ensures x.stratum != key {
      if x.stratum == key {
        HomeIsCounted(picked, x);
        assert false;
      }
    }
    PickFromOne(rows, picked, bucket, key, quota[key]);
    forall k ensures Count(picked + piece, k) == Count(picked, k) + if k == key then |piece| else 0 {
      CountConcat(picked, piece, k);
      CountUniform(piece, key, k);
    }
    assert key in keys;
  }

  lemma {:induction false} QuotasMakeItProportional(rows: seq<Row>, keys: seq<int>, sizes: map<int, int>,
                                                    quota: map<int, int>,
                                 limit: nat, picked: seq<Row>)
    requires |rows| > limit && Sizes(keys, sizes) && Apportioned(keys, sizes, quota, limit, |rows|)
    requires forall i | 0 <= i < |keys| :: sizes[keys[i]] == Count(rows, keys[i])
    requires forall k | k !in keys :: Count(rows, k) == 0
    requires |picked| == limit && PickedSoFar(rows, keys, quota, picked, |keys|)
    ensures Proportional(rows, limit, picked)
  {
    hide RowsOf, Floor, Rest, SumOver, Ceiling;
    NothingOfNothing(limit, |rows|);
    forall k
      ensures Floor(limit, Count(rows, k), |rows|) <= Count(picked, k) <= Ceiling(limit, Count(rows, k), |rows|)
    {
      if k in keys {
        var i :| 0 <= i < |keys| && keys[i] == k;
      }
    }
    forall a, b | Count(rows, a) > Count(rows, b) || (Count(rows, a) == Count(rows, b) && a < b)
      ensures Count(picked, b) <= Count(picked, a)
    {
      if b in keys {
        var j :| 0 <= j < |keys| && keys[j] == b;
        var i :| 0 <= i < |keys| && keys[i] == a;
        assert Precedes(keys[i], keys[j], sizes);
      }
    }
    forall a, b | Outranks(a, Count(rows, a), b, Count(rows, b), limit, |rows|) &&
                  Count(picked, b) > Floor(limit, Count(rows, b), |rows|)
      ensures Count(picked, a) > Floor(limit, Count(rows, a), |rows|)
    {
      RoundedUpHasRest(limit, Count(rows, b), |rows|, Count(picked, b));
      assert b in keys && a in keys;
      var j :| 0 <= j < |keys| && keys[j] == b;
      var i :| 0 <= i < |keys| && keys[i] == a;
    }
  }

  lemma NothingOfNothing(limit: nat, total: nat)
    requires total > 0
    ensures Floor(limit, 0, total) == 0 && Ceiling(limit, 0, total) == 0 && Rest(limit, 0, total) == 0
  {}

  lemma RoundedUpHasRest(limit: nat, size: nat, total: nat, share: nat)
    requires total > 0 && Floor(limit, size, total) < share <= Ceiling(limit, size, total)
    ensures Rest(limit, size, total) > 0
  {}

  /** Take each stratum's quota from the front of its shuffled rows: that alone makes the limit. */
  method Pick(rows: seq<Row>, keys: seq<int>, buckets: map<int, seq<Row>>, sizes: map<int, int>,
              quota: map<int, int>, limit: nat) returns (picked: seq<Row>)
    requires |rows| > limit && Sizes(keys, sizes) && Apportioned(keys, sizes, quota, limit, |rows|)
    requires forall i | 0 <= i < |keys| :: keys[i] in buckets && sizes[keys[i]] == Count(rows, keys[i])
    requires forall k | k !in keys :: Count(rows, k) == 0
    requires forall k | k in buckets :: multiset(buckets[k]) == multiset(RowsOf(rows, k))
    ensures |picked| == limit && Proportional(rows, limit, picked)
  {
    hide RowsOf, Floor, Rest, Ceiling, Proportional, PickedSoFar;
    picked := [];
    assert keys[0..] == keys;
    NothingPicked(rows, keys, quota);
    for i := 0 to |keys|
      invariant |picked| + SumOver(keys[i..], quota) == limit
      invariant PickedSoFar(rows, keys, quota, picked, i)
    {
      var key := keys[i];
      SameSize(buckets[key], RowsOf(rows, key));
      PickStep(rows, keys, quota, picked, i, buckets[key]);
      picked := picked + buckets[key][..quota[key]];
      assert keys[i..][1..] == keys[i + 1..];
    }
    QuotasMakeItProportional(rows, keys, sizes, quota, limit, picked);
  }

  lemma SameSize(a: seq<Row>, b: seq<Row>)
    requires multiset(a) == multiset(b)
    ensures |a| == |b|
  {
    assert |multiset(a)| == |a| && |multiset(b)| == |b|;
  }

  lemma NothingPicked(rows: seq<Row>, keys: seq<int>, quota: map<int, int>)
    requires Covers(quota, keys)
    ensures PickedSoFar(rows, keys, quota, [], 0)
  {}
}
