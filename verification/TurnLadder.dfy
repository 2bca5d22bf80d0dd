/** The rungs a session may move between, and what that means for every plan made on them. */
module TurnLadder {
  import opened Prelude
  import opened EffortPolicy
  import opened PolicyOrder

  // --- configuration -------------------------------------------------------

  datatype LaneModel = LaneModel(model: string, effort: Option<Effort>)

  datatype Rule = Rule(name: string, protected: bool)

  datatype Alias = Alias(maxEffort: Option<Effort>, rules: seq<Rule>)

  /** What `turn_ladder` reads: the configured orders and lists, and the session row. */
  datatype Setting = Setting(
    order: seq<Effort>,
    wanted: seq<Effort>,
    efforts: seq<Effort>,
    minEffort: Option<Effort>,
    alias: Option<Alias>,
    lane: Option<seq<LaneModel>>,
    model: string,
    decisionRule: string,
    base: Effort)
  {
    /** Configuration validation: one order without repeats, the wanted efforts and the cap in it. */
    predicate Valid() {
      && Distinct(order) && Distinct(wanted) && "" !in order
      && (forall e | e in wanted :: e in order)
      && (alias.Some? && alias.value.maxEffort.Some? ==> alias.value.maxEffort.value in order)
    }
  }

  function RankOf(order: seq<Effort>, e: Option<Effort>): int { Rank(order, if e.Some? then e.value else "") }

  /** The higher of two floors, either of which may be absent. */
  function Stronger(order: seq<Effort>, left: Option<Effort>, right: Option<Effort>): Option<Effort> {
    if left.None? then right
    else if right.None? then left
    else if RankOf(order, left) >= RankOf(order, right) then left
    else right
  }

  /** An unlisted effort is not qualified; an entry with no effort means any. */
  predicate Allows(lane: seq<LaneModel>, model: string, effort: Effort) {
    exists i :: 0 <= i < |lane| && lane[i].model == model && (lane[i].effort.None? || lane[i].effort == Some(effort))
  }

  // --- the profile's rungs, weakest first ----------------------------------

  function Key(order: seq<Effort>, e: Effort): int { if e in order then Rank(order, e) else |order| }

  function Insert(order: seq<Effort>, e: Effort, s: seq<Effort>): (r: seq<Effort>)
    ensures multiset(r) == multiset(s) + multiset{e}
  {
    if s == [] || Key(order, e) < Key(order, s[0]) then [e] + s
    else
      assert s == [s[0]] + s[1..];
      [s[0]] + Insert(order, e, s[1..])
  }

  function Sort(order: seq<Effort>, s: seq<Effort>): (r: seq<Effort>)
    ensures multiset(r) == multiset(s)
  {
    if s == [] then []
    else
      assert s == s[..|s| - 1] + [s[|s| - 1]];
      Insert(order, s[|s| - 1], Sort(order, s[..|s| - 1]))
  }

  predicate Ascending(order: seq<Effort>, s: seq<Effort>) {
    forall i, j | 0 <= i < j < |s| :: Key(order, s[i]) <= Key(order, s[j])
  }

  predicate StepsUp(order: seq<Effort>, s: seq<Effort>) {
    forall i | 0 <= i < |s| - 1 :: Key(order, s[i]) <= Key(order, s[i + 1])
  }

  lemma {:induction false} StepsUpAscends(order: seq<Effort>, s: seq<Effort>, i: nat, j: nat)
    requires StepsUp(order, s) && i <= j < |s|
    ensures Key(order, s[i]) <= Key(order, s[j])
  {
    hide Key;
    if i < j {
      StepsUpAscends(order, s, i, j - 1);
      assert Key(order, s[j - 1]) <= Key(order, s[j - 1 + 1]);
    }
  }

  lemma {:induction false} InsertStepsUp(order: seq<Effort>, e: Effort, s: seq<Effort>)
    requires StepsUp(order, s)
    ensures StepsUp(order, Insert(order, e, s))
    ensures s != [] ==> Insert(order, e, s)[0] == e || Insert(order, e, s)[0] == s[0]
  {
    hide Key;
    if s != [] && Key(order, e) >= Key(order, s[0]) {
      InsertStepsUp(order, e, s[1..]);
    }
  }

  lemma {:induction false} SortAscends(order: seq<Effort>, s: seq<Effort>)
    ensures StepsUp(order, Sort(order, s)) && Ascending(order, Sort(order, s))
  {
    hide Key;
    if s != [] {
      SortAscends(order, s[..|s| - 1]);
      InsertStepsUp(order, s[|s| - 1], Sort(order, s[..|s| - 1]));
    }
    var r := Sort(order, s);
    forall i, j | 0 <= i < j < |r| ensures Key(order, r[i]) <= Key(order, r[j]) {
      StepsUpAscends(order, r, i, j);
    }
  }

  function Offered(wanted: seq<Effort>, efforts: seq<Effort>): (r: seq<Effort>)
    ensures forall e :: e in r <==> e in wanted && e in efforts
    ensures multiset(r) <= multiset(wanted)
  {
    if wanted == [] then []
    else
      assert wanted == [wanted[0]] + wanted[1..];
      (if wanted[0] in efforts then [wanted[0]] else []) + Offered(wanted[1..], efforts)
  }

  function EffortLadder(s: Setting): seq<Effort> { Sort(s.order, Offered(s.wanted, s.efforts)) }

  // --- the rungs of one turn -----------------------------------------------

  /** A protected rule bound this session. */
  predicate Protected(s: Setting) {
    s.alias.Some? && exists i :: 0 <= i < |s.alias.value.rules| && s.alias.value.rules[i] == Rule(s.decisionRule, true)
  }

  function FloorOf(s: Setting): Option<Effort> {
    if Protected(s) || (s.alias.Some? && s.decisionRule == "low_confidence") then
      Stronger(s.order, s.minEffort, Some(s.base))
    else s.minEffort
  }

  predicate Permits(s: Setting, floor: Option<Effort>, e: Effort) {
    && !(floor.Some? && floor.value != "" && Rank(s.order, e) < RankOf(s.order, floor))
    && !(s.alias.Some? && s.alias.value.maxEffort.Some? && s.alias.value.maxEffort.value != ""
         && Rank(s.order, e) > RankOf(s.order, s.alias.value.maxEffort))
    && (s.lane.Some? ==> Allows(s.lane.value, s.model, e))
  }

  function Kept(s: Setting, floor: Option<Effort>, rungs: seq<Effort>, n: nat): seq<Effort>
    requires n <= |rungs|
  {
    if n == 0 then []
    else Kept(s, floor, rungs, n - 1) + if Permits(s, floor, rungs[n - 1]) then [rungs[n - 1]] else []
  }

  function Keep(s: Setting): seq<Effort> { Kept(s, FloorOf(s), EffortLadder(s), |EffortLadder(s)|) }

  function ReturnedFloor(s: Setting): Option<Effort> {
    var keep := Keep(s);
    if FloorOf(s).Some? && FloorOf(s).value in keep then FloorOf(s)
    else if keep != [] then Some(keep[0])
    else None
  }

  method FindFloor(s: Setting) returns (floor: Option<Effort>, protected: bool)
    ensures floor == FloorOf(s) && protected == Protected(s)
  {
    floor, protected := s.minEffort, false;
    if s.alias.None? {
      return;
    }
    var rules := s.alias.value.rules;
    for i := 0 to |rules|
      invariant protected <==> exists k :: 0 <= k < i && rules[k] == Rule(s.decisionRule, true)
      invariant floor == if protected then Stronger(s.order, s.minEffort, Some(s.base)) else s.minEffort
    {
      if rules[i].name == s.decisionRule && rules[i].protected {
        // Whatever a protected rule admitted is a floor, not a starting point.
        assert rules[i] == Rule(s.decisionRule, true);
        floor, protected := Stronger(s.order, floor, Some(s.base)), true;
      }
    }
    if s.decisionRule == "low_confidence" {
      floor := Stronger(s.order, floor, Some(s.base));
    }
  }

  method Rungs(s: Setting) returns (keep: seq<Effort>, floor: Option<Effort>, protected: bool)
    ensures keep == Keep(s) && floor == ReturnedFloor(s) && protected == Protected(s)
  {
    hide Permits, EffortLadder, FloorOf, Protected;
    var rungs := EffortLadder(s);
    var least;
    least, protected := FindFloor(s);
    keep := [];
    for i := 0 to |rungs|
      invariant keep == Kept(s, least, rungs, i)
    {
      if Permits(s, least, rungs[i]) {
        keep := keep + [rungs[i]];
      }
    }
    floor := if least.Some? && least.value in keep then least else if keep != [] then Some(keep[0]) else None;
  }

  // --- what a ladder promises ----------------------------------------------

  lemma {:induction false} KeptMembers(s: Setting, floor: Option<Effort>, rungs: seq<Effort>, n: nat)
    requires n <= |rungs|
    ensures forall e :: e in Kept(s, floor, rungs, n) <==> e in rungs[..n] && Permits(s, floor, e)
    ensures multiset(Kept(s, floor, rungs, n)) <= multiset(rungs[..n])
  {
    hide Permits;
    if n > 0 {
      KeptMembers(s, floor, rungs, n - 1);
      assert rungs[..n] == rungs[..n - 1] + [rungs[n - 1]];
    }
  }

  lemma {:induction false} KeptAscends(s: Setting, floor: Option<Effort>, rungs: seq<Effort>, n: nat)
    requires n <= |rungs| && Ascending(s.order, rungs)
    ensures Ascending(s.order, Kept(s, floor, rungs, n))
  {
    hide Permits, Key;
    if n > 0 {
      KeptAscends(s, floor, rungs, n - 1);
      KeptMembers(s, floor, rungs, n - 1);
      var before := Kept(s, floor, rungs, n - 1);
      forall i | 0 <= i < |before| ensures Key(s.order, before[i]) <= Key(s.order, rungs[n - 1]) {
        assert before[i] in rungs[..n - 1];
      }
    }
  }

  lemma DistinctFromMultiset<T>(a: seq<T>, b: seq<T>)
    requires Distinct(b) && multiset(a) <= multiset(b)
    ensures Distinct(a)
  {
    forall i, j | 0 <= i < j < |a| ensures a[i] != a[j] {
      if a[i] == a[j] {
        assert a == a[..i] + [a[i]] + a[i + 1..j] + [a[j]] + a[j + 1..];
        assert multiset(a)[a[i]] >= 2;
        DistinctCounts(b, a[i]);
      }
    }
  }

  lemma {:induction false} DistinctCounts<T>(b: seq<T>, x: T)
    requires Distinct(b)
    ensures multiset(b)[x] <= 1
  {
    if b != [] {
      assert b == [b[0]] + b[1..];
      DistinctCounts(b[1..], x);
      assert b[0] !in b[1..];
    }
  }

  /** The ladder a turn is planned on: exactly the offered rungs every limit permits, without
      repeats, weakest first, with its own floor at the bottom. */
  lemma {:induction false} LadderShape(s: Setting)
    requires s.Valid()
    ensures var keep := Keep(s);
            && Distinct(keep) && Ascending(s.order, keep)
            && (forall e :: e in keep <==> e in s.wanted && e in s.efforts && Permits(s, FloorOf(s), e))
            && Bottom(keep, ReturnedFloor(s)) == 0
  {
    var rungs, keep := EffortLadder(s), Keep(s);
    assert rungs[..|rungs|] == rungs;
    KeptMembers(s, FloorOf(s), rungs, |rungs|);
    SortAscends(s.order, Offered(s.wanted, s.efforts));
    KeptAscends(s, FloorOf(s), rungs, |rungs|);
    assert multiset(keep) <= multiset(s.wanted);
    DistinctFromMultiset(keep, s.wanted);
    OfferedMembers(s);
    FloorIsFirst(s);
  }

  lemma OfferedMembers(s: Setting)
    ensures forall e :: e in EffortLadder(s) <==> e in s.wanted && e in s.efforts
  {
    var rungs, offered := EffortLadder(s), Offered(s.wanted, s.efforts);
    forall e ensures e in rungs <==> e in offered {
      assert e in rungs <==> e in multiset(rungs);
      assert e in offered <==> e in multiset(offered);
    }
  }

  /** A rung of an ascending ladder that none of its rungs ranks below is the first. */
  lemma LeastIsFirst(order: seq<Effort>, keep: seq<Effort>, i: nat)
    requires Distinct(keep) && Ascending(order, keep) && i < |keep| && keep[0] in order && keep[i] in order
    requires Rank(order, keep[0]) >= Rank(order, keep[i])
    ensures i == 0
  {
  }

  lemma FloorIsFirst(s: Setting)
    requires s.Valid() && Distinct(Keep(s)) && Ascending(s.order, Keep(s))
    requires forall e | e in Keep(s) :: e in s.wanted && Permits(s, FloorOf(s), e)
    ensures Bottom(Keep(s), ReturnedFloor(s)) == 0
  {
    hide Keep, Ascending, Rank, FloorOf, Allows;
    var keep := Keep(s);
    if keep != [] {
      IndexOfDistinct(keep, 0);
      if FloorOf(s).Some? && FloorOf(s).value in keep {
        assert Permits(s, FloorOf(s), keep[0]);
        LeastIsFirst(s.order, keep, IndexOf(keep, FloorOf(s).value).value);
      }
    }
  }

  /** A protected rule among these bears the name. */
  ghost predicate NamesProtected(rules: seq<Rule>, name: string) {
    exists i :: 0 <= i < |rules| && rules[i].name == name && rules[i].protected
  }

  /** The session was admitted by a rule of its alias that is protected, or for want of confidence. */
  ghost predicate AdmittedAsFloor(s: Setting) {
    s.alias.Some? && (s.decisionRule == "low_confidence" || NamesProtected(s.alias.value.rules, s.decisionRule))
  }

  lemma ProtectedIff(s: Setting)
    ensures Protected(s) <==> s.alias.Some? && NamesProtected(s.alias.value.rules, s.decisionRule)
  {
    if s.alias.Some? && NamesProtected(s.alias.value.rules, s.decisionRule) {
      var rules := s.alias.value.rules;
      var i :| 0 <= i < |rules| && rules[i].name == s.decisionRule && rules[i].protected;
      assert rules[i] == Rule(s.decisionRule, true);
    }
  }

  /** Every limit on one effort, each read for itself: the client's minimum, the admitted effort where that is
      a floor, the cap of the alias, and the quality lane, which lists the model with this effort or with any. */
  ghost predicate WithinLimits(s: Setting, e: Effort) {
    && e in s.wanted && e in s.efforts && e in s.order
    && (s.minEffort.Some? ==> Rank(s.order, s.minEffort.value) <= Rank(s.order, e))
    && (AdmittedAsFloor(s) ==> Rank(s.order, s.base) <= Rank(s.order, e))
    && (s.alias.Some? && s.alias.value.maxEffort.Some? ==>
          Rank(s.order, e) <= Rank(s.order, s.alias.value.maxEffort.value))
    && (s.lane.Some? ==>
          exists i :: 0 <= i < |s.lane.value| && s.lane.value[i].model == s.model
                      && (s.lane.value[i].effort.Some? ==> s.lane.value[i].effort.value == e))
  }

  /** The floor is one of the two it is made of, and none of those that apply ranks above it. */
  lemma FloorIsHighest(s: Setting)
    requires s.Valid()
    ensures FloorOf(s).None? <==> s.minEffort.None? && !AdmittedAsFloor(s)
    ensures FloorOf(s).Some? ==>
              && (FloorOf(s) == s.minEffort || (AdmittedAsFloor(s) && FloorOf(s) == Some(s.base)))
              && (s.minEffort.Some? ==> Rank(s.order, s.minEffort.value) <= Rank(s.order, FloorOf(s).value))
              && (AdmittedAsFloor(s) ==> Rank(s.order, s.base) <= Rank(s.order, FloorOf(s).value))
  {
    hide Rank, NamesProtected;
    ProtectedIff(s);
  }

  lemma PermittedIff(s: Setting, e: Effort)
    requires s.Valid() && e in s.wanted && e in s.efforts
    ensures Permits(s, FloorOf(s), e) <==> WithinLimits(s, e)
  {
    hide Rank, FloorOf, AdmittedAsFloor, Allows;
    FloorIsHighest(s);
    if s.lane.Some? {
      AllowedIff(s.lane.value, s.model, e);
    }
  }

  lemma AllowedIff(lane: seq<LaneModel>, model: string, e: Effort)
    ensures Allows(lane, model, e) <==>
              exists i :: 0 <= i < |lane| && lane[i].model == model
                          && (lane[i].effort.Some? ==> lane[i].effort.value == e)
  {}

  /** What a turn is planned on, limit by limit: the rungs within every limit and no others, in strictly rising
      rank. The floor handed back is the weakest of them, and the turn is protected exactly when a protected rule
      of the alias admitted the session. */
  lemma {:induction false} LadderWithinLimits(s: Setting)
    requires s.Valid()
    ensures var keep := Keep(s);
            && (forall e :: e in keep <==> WithinLimits(s, e))
            && (forall i, j | 0 <= i < j < |keep| :: Rank(s.order, keep[i]) < Rank(s.order, keep[j]))
            && ReturnedFloor(s) == (if keep == [] then None else Some(keep[0]))
    ensures Protected(s) <==> s.alias.Some? && NamesProtected(s.alias.value.rules, s.decisionRule)
  {
    hide Keep, Permits, FloorOf, WithinLimits, Rank, NamesProtected;
    LadderShape(s);
    var keep := Keep(s);
    forall e ensures e in keep <==> WithinLimits(s, e) {
      if e in s.wanted && e in s.efforts {
        PermittedIff(s, e);
      } else {
        OnlyOffered(s, e);
      }
    }
    forall i, j | 0 <= i < j < |keep| ensures Rank(s.order, keep[i]) < Rank(s.order, keep[j]) {
      HigherRungRanksHigher(s.order, keep, i, j);
    }
    ProtectedIff(s);
  }

  lemma OnlyOffered(s: Setting, e: Effort)
    ensures WithinLimits(s, e) ==> e in s.wanted && e in s.efforts
  {}

  /** Every effort a recorded change names is within every limit, and an upward change strictly raises the
      effort where a downward one lowers it. */
  lemma {:induction false} ChangeRespectsEveryLimit(s: Setting, cfg: Cfg, current: Option<Effort>, ev: Evidence,
                                 recs: seq<Option<Effort>>, pressure: real)
    requires s.Valid()
    ensures var x := Plan(cfg, Keep(s), current, Some(s.base), ReturnedFloor(s), ev, recs, pressure, Protected(s));
            x.action.Change? ==>
              && x.toEffort.Some? && current.Some? && WithinLimits(s, x.toEffort.value)
              && (x.direction.Up? ==> Rank(s.order, current.value) < Rank(s.order, x.toEffort.value))
              && (x.direction.Down? ==> Rank(s.order, x.toEffort.value) < Rank(s.order, current.value))
              && !x.direction.Hold?
  {
    hide Keep, Permits, Ascending, FloorOf, ReturnedFloor, Protected, WithinLimits, Rank, Decide;
    var keep := Keep(s);
    LadderShape(s);
    LadderWithinLimits(s);
    if |keep| >= 2 && current.Some? && current.value in keep {
      hide Plan;
      var at := Rank(keep, current.value);
      var ask, w, to := PlanByPosition(cfg, keep, current.value, Some(s.base), ReturnedFloor(s), ev, recs, pressure,
                                       Protected(s));
      AskAnswersTo(cfg, keep, at, Bottom(keep, ReturnedFloor(s)), ev, Clamp(pressure), Clamp(pressure), Protected(s));
      if to != at {
        HigherRungRanksHigher(s.order, keep, at, to);
      }
    }
  }

  lemma HigherRungRanksHigher(order: seq<Effort>, keep: seq<Effort>, i: nat, j: nat)
    requires Distinct(keep) && Ascending(order, keep) && i < |keep| && j < |keep| && i != j
    requires keep[i] in order && keep[j] in order
    ensures i < j <==> Rank(order, keep[i]) < Rank(order, keep[j])
  {
    assert keep[i] != keep[j];
  }
}
