/** What the arms of a replay send, by the shipped numbers alone. */
module ShippedArms {
  import opened Prelude
  import opened EffortPolicy
  import opened PolicyOrder
  import opened Readings
  import opened EffortReplay

  // --- the reference: two rungs remembered -----------------------------------

  /** Where a session stands, and what its last turn asked for. */
  datatype Stand = Stand(at: nat, asked: Option<nat>)

  predicate Answered(e: Evidence) { e.error == "" && e.difficulty.Some? && e.harm.Some? }

  predicate Meets(answer: Option<real>, bar: real) { answer.Some? && bar <= answer.value }

  predicate Defect(e: Evidence) {
    Meets(e.corrective, 0.6) && !(e.failureMode in {Some("environment_problem"), Some("missing_information")})
  }

  predicate Demanding(e: Evidence) {
    Meets(e.difficulty, 1.8) || Meets(e.pHard, 0.4) || Meets(e.harm, 0.6) || Defect(e)
  }

  predicate Light(e: Evidence) {
    && !e.shortContinuation && !Meets(e.corrective, 0.6)
    && e.difficulty.Some? && e.difficulty.value <= 0.8
    && e.harm.Some? && e.harm.value <= 0.2
  }

  /** The lowest rung a session may be put on. */
  function Lowest(s: Session): nat
    requires s.Valid()
  {
    if s.floor.Some? && s.floor.value in s.ladder then Rank(s.ladder, s.floor.value) else 0
  }

  /** How far up a demanding turn reaches: one rung, or by jumps also to `medium` from 1.8 and to `high` from 2.6 of
      difficulty, and to the top on 0.6 of hard mass or a named defect. */
  function Reaching(s: Session, at: nat, e: Evidence, jump: bool): int
    requires s.Valid()
  {
    var top := |s.ladder| - 1;
    var one := Max(Lowest(s), Min(at + 1, top));
    if !jump then one
    else
      var medium := if Meets(e.difficulty, 1.8) then Rank(s.ladder, "medium") else 0;
      var high := if Meets(e.difficulty, 2.6) then Rank(s.ladder, "high") else 0;
      var hardest := if Meets(e.pHard, 0.6) || Defect(e) then top else 0;
      Max(Max(one, medium), Max(high, hardest))
  }

  /** One turn: a demanding one moves up at once; a light one, or one under 0.6 of pressure that asks for nothing, moves
      one rung down, `patient` only when the turn before asked for the same. */
  function Stride(s: Session, from: Stand, t: Turn, jump: bool, patient: bool): (to: Stand)
    requires s.Valid() && from.at < |s.ladder|
    ensures to.at < |s.ladder|
  {
    if |s.ladder| < 2 || !Answered(t.evidence) then Stand(from.at, Some(from.at))
    else if Demanding(t.evidence) then
      var up := Reaching(s, from.at, t.evidence, jump);
      Stand(up, Some(up))
    else if Light(t.evidence) || t.pressure >= 0.6 then
      var down := Max(from.at - 1, Lowest(s));
      Stand(if patient && from.asked != Some(down) then from.at else down, Some(down))
    else Stand(from.at, Some(from.at))
  }

  function Walk(s: Session, n: nat, jump: bool, patient: bool): (to: Stand)
    requires s.Valid() && n <= |s.turns|
    ensures to.at < |s.ladder|
  {
    if n == 0 then Stand(Rank(s.ladder, s.base), None)
    else Stride(s, Walk(s, n - 1, jump, patient), s.turns[n - 1], jump, patient)
  }

  // --- the shipped arms are that walk ------------------------------------------

  predicate Shipped(cfg: Cfg) { cfg in {JEV_HYSTERESIS, JEV_NO_HYSTERESIS, JEV_UPWARD_STEP} }

  /** A state of the policy and a stand of the walk say the same. */
  ghost predicate Matches(s: Session, st: State, w: Stand) {
    && w.at < |s.ladder| && st.current == s.ladder[w.at]
    && (match w.asked
        case None => st.recs == []
        case Some(i) => i < |s.ladder| && st.recs != [] && st.recs[|st.recs| - 1] == Some(s.ladder[i]))
  }

  lemma ShippedBars(e: Evidence, pressure: real)
    ensures MeetsUpwardBar(e, SHIPPED.thresholds) <==> Demanding(e)
    ensures IsEasy(e, SHIPPED.thresholds) <==> Light(e)
    ensures IsScarce(pressure, SHIPPED.thresholds) <==> pressure >= 0.6
    ensures NamesDefect(e, SHIPPED.thresholds.correctiveFollowup) <==> Defect(e)
  {}

  lemma ShippedNames(s: Session, cfg: Cfg, e: Evidence, i: nat)
    requires s.Valid() && Shipped(cfg)
    ensures Names(cfg, s.ladder, e, false, i) <==>
              || (Meets(e.difficulty, 1.8) && i == Rank(s.ladder, "medium"))
              || (Meets(e.difficulty, 2.6) && i == Rank(s.ladder, "high"))
              || ((Meets(e.pHard, 0.6) || Defect(e)) && i == |s.ladder| - 1)
  {
    hide IndexOf;
    var entries := cfg.targets.difficulty;
    assert entries[0] == ("medium", 1.8) && entries[1] == ("high", 2.6) && |entries| == 2;
    assert IndexOf(s.ladder, entries[0].0) == Some(i) <==> i == Rank(s.ladder, "medium");
    assert IndexOf(s.ladder, entries[1].0) == Some(i) <==> i == Rank(s.ladder, "high");
    ShippedBars(e, 0.0);
  }

  /** The strongest rung a demanding turn asks for, among the shipped entries. */
  lemma ReachingIsStrongest(s: Session, cfg: Cfg, at: nat, e: Evidence, w: int)
    requires s.Valid() && at < |s.ladder| && Shipped(cfg) && 0 <= w < |s.ladder|
    requires AsksFor(cfg, s.ladder, at, Lowest(s), e, false, w)
    requires forall i: nat | AsksFor(cfg, s.ladder, at, Lowest(s), e, false, i) :: i <= w
    ensures w == Reaching(s, at, e, cfg.upward.Jump?)
  {
    hide Rank, Names, Shipped, Lowest;
    var top := |s.ladder| - 1;
    assert AsksFor(cfg, s.ladder, at, Lowest(s), e, false, Min(at + 1, top));
    assert AsksFor(cfg, s.ladder, at, Lowest(s), e, false, Lowest(s));
    if cfg.upward.Jump? {
      var medium, high := Rank(s.ladder, "medium"), Rank(s.ladder, "high");
      forall i: nat {:trigger AsksFor(cfg, s.ladder, at, Lowest(s), e, false, i)}
        ensures Names(cfg, s.ladder, e, false, i) <==>
          || (Meets(e.difficulty, 1.8) && i == medium) || (Meets(e.difficulty, 2.6) && i == high)
          || ((Meets(e.pHard, 0.6) || Defect(e)) && i == top)
      {
        ShippedNames(s, cfg, e, i);
      }
      assert Meets(e.difficulty, 1.8) && medium >= 0 ==> AsksFor(cfg, s.ladder, at, Lowest(s), e, false, medium);
      assert Meets(e.difficulty, 2.6) && high >= 0 ==> AsksFor(cfg, s.ladder, at, Lowest(s), e, false, high);
      assert Meets(e.pHard, 0.6) || Defect(e) ==> AsksFor(cfg, s.ladder, at, Lowest(s), e, false, top);
    }
  }

  lemma {:induction false} StrideMatches(s: Session, cfg: Cfg, st: State, w: Stand, t: Turn)
    requires s.Valid() && Shipped(cfg) && Matches(s, st, w)
    ensures var x := PlanIn(cfg, s, st, t);
            var next := Stride(s, w, t, cfg.upward.Jump?, cfg.hysteresis);
            && Matches(s, Advance(st, x), next)
            && (x.action.Change? <==> next.at != w.at)
  {
    hide Plan, AsksFor, Names, MeetsUpwardBar, IsEasy, IsScarce, Demanding, Light, Defect, Reaching, Rank, AskedLately;
    AskedJustNow(st.recs, PlanIn(cfg, s, st, t).recommendation);
    RankOfRung(s.ladder, w.at);
    ShippedBars(t.evidence, t.pressure);
    var x := PlanIn(cfg, s, st, t);
    if Plannable(s.ladder, Some(st.current), t.evidence) {
      LandingByReadings(cfg, s.ladder, st.current, Some(s.base), s.floor, t.evidence, st.recs, t.pressure, false);
      if Demanding(t.evidence) {
        ReachingIsStrongest(s, cfg, w.at, t.evidence, Rank(s.ladder, x.recommendation.value));
      }
    } else {
      NothingPlanned(cfg, s, st, t);
    }
  }

  lemma AskedJustNow(recs: seq<Option<Effort>>, rec: Option<Effort>)
    ensures AskedLately(recs, rec, 1) <==> recs != [] && recs[|recs| - 1] == rec
    ensures AskedLately(recs, rec, 0)
  {}

  lemma NothingPlanned(cfg: Cfg, s: Session, st: State, t: Turn)
    requires !Plannable(s.ladder, Some(st.current), t.evidence)
    ensures var x := PlanIn(cfg, s, st, t);
            x.action.Keep? && x.toEffort == x.recommendation == Some(st.current)
  {}

  /** A whole run of a shipped arm: the policy and its history of recommendations never do anything but this walk,
      which remembers one rung and the last thing asked for. */
  lemma {:induction false} ArmIsWalk(s: Session, cfg: Cfg, n: nat)
    requires s.Valid() && Shipped(cfg) && n <= |s.turns|
    ensures Matches(s, After(cfg, s, n), Walk(s, n, cfg.upward.Jump?, cfg.hysteresis))
  {
    hide PlanIn, Stride, Advance;
    if n > 0 {
      ArmIsWalk(s, cfg, n - 1);
      StrideMatches(s, cfg, After(cfg, s, n - 1), Walk(s, n - 1, cfg.upward.Jump?, cfg.hysteresis), s.turns[n - 1]);
    }
  }

  // --- the rows of a replay ------------------------------------------------------

  /** The rung each arm sends for a turn: the fixed arms a rung of the ladder, the simple rule one of three by
      difficulty alone, a shipped policy arm where its walk stands; none below the floor. */
  function SentRung(arm: Arm, s: Session, i: nat): (r: nat)
    requires s.Valid() && i < |s.turns| && (arm.Policy? ==> Shipped(arm.cfg))
    ensures r < |s.ladder|
  {
    var top := |s.ladder| - 1;
    var second := if top == 0 then 0 else Max(1, Lowest(s));
    match arm
    case FixedLow => Lowest(s)
    case FixedMedium => second
    case FixedHigh => top
    case SimpleRule =>
      var d := s.turns[i].evidence.difficulty;
      if Meets(d, 1.8) then top else if Meets(d, 0.8) then second else Lowest(s)
    case Policy(cfg) => Walk(s, i + 1, cfg.upward.Jump?, cfg.hysteresis).at
  }

  /** The rung a session is on when a turn begins. */
  function Before(arm: Arm, s: Session, i: nat): (r: nat)
    requires s.Valid() && i < |s.turns| && (arm.Policy? ==> Shipped(arm.cfg))
    ensures r < |s.ladder|
  {
    if i == 0 then Rank(s.ladder, s.base) else SentRung(arm, s, i - 1)
  }

  lemma {:induction false} SentByNumbers(arm: Arm, s: Session, i: nat)
    requires s.Valid() && i < |s.turns| && (arm.Policy? ==> Shipped(arm.cfg))
    ensures Sent(arm, s, i) == s.ladder[SentRung(arm, s, i)]
  {
    hide Walk, After;
    match arm
    case Policy(cfg) => ArmIsWalk(s, cfg, i + 1);
    case _ =>
  }

  /** Whether a policy arm changed the effort, which is whether its rung moved. */
  lemma {:induction false} ChangedByNumbers(s: Session, cfg: Cfg, i: nat)
    requires s.Valid() && i < |s.turns| && Shipped(cfg)
    ensures PlanAt(cfg, s, i).action.Change? <==> SentRung(Policy(cfg), s, i) != Before(Policy(cfg), s, i)
  {
    hide PlanIn, Stride;
    ArmIsWalk(s, cfg, i);
    StrideMatches(s, cfg, After(cfg, s, i), Walk(s, i, cfg.upward.Jump?, cfg.hysteresis), s.turns[i]);
  }

  /** Every row of every arm, in rungs: what is sent, what that is against what was wanted, and whether it moved. */
  lemma {:induction false} RowByNumbers(arm: Arm, s: Session, i: nat)
    requires s.Valid() && i < |s.turns| && (arm.Policy? ==> Shipped(arm.cfg))
    ensures var row, sent, wants := Rows(arm, s)[i], SentRung(arm, s, i), s.turns[i].wants;
            && row.sent == s.ladder[sent] && row.wants == wants
            && (row.adequate <==> Rank(s.ladder, wants) <= sent)
            && (row.exact <==> s.ladder[sent] == wants)
            && row.over == sent - Rank(s.ladder, wants)
            && (row.changed <==> (arm.SimpleRule? || arm.Policy?) && sent != Before(arm, s, i))
  {
    hide Walk, After, PlanAt, Sent, SentRung;
    SentByNumbers(arm, s, i);
    RankOfRung(s.ladder, SentRung(arm, s, i));
    match arm
    case Policy(cfg) => ChangedByNumbers(s, cfg, i);
    case SimpleRule =>
      if i > 0 {
        SentByNumbers(arm, s, i - 1);
        RankOfRung(s.ladder, SentRung(arm, s, i - 1));
      }
    case _ =>
  }

  lemma ReachesTopIff(s: Session, at: nat, e: Evidence)
    requires s.Valid()
    ensures var top := |s.ladder| - 1;
            Reaching(s, at, e, true) == top <==>
              || top <= at + 1 || Lowest(s) == top || Meets(e.pHard, 0.6) || Defect(e)
              || (Meets(e.difficulty, 1.8) && s.ladder[top] == "medium")
              || (Meets(e.difficulty, 2.6) && s.ladder[top] == "high")
  {
    hide Rank, Defect;
    RankOfRung(s.ladder, |s.ladder| - 1);
  }

  /** When a demanding turn of a shipped arm that jumps gets the top rung: exactly when that is the next one or the
      floor, when hard mass or a named defect asks for it, or when it bears a name whose difficulty is met. How the
      session was admitted has no part in it. */
  lemma {:induction false} TopIff(s: Session, cfg: Cfg, i: nat)
    requires s.Valid() && |s.ladder| >= 2 && i < |s.turns| && Shipped(cfg) && cfg.upward.Jump?
    requires Answered(s.turns[i].evidence) && Demanding(s.turns[i].evidence)
    ensures var top, e := |s.ladder| - 1, s.turns[i].evidence;
            Rows(Policy(cfg), s)[i].sent == s.ladder[top] <==>
              || top <= Before(Policy(cfg), s, i) + 1 || Lowest(s) == top
              || (e.pHard.Some? && 0.6 <= e.pHard.value)
              || (e.corrective.Some? && 0.6 <= e.corrective.value &&
                  e.failureMode != Some("environment_problem") && e.failureMode != Some("missing_information"))
              || (1.8 <= e.difficulty.value && s.ladder[top] == "medium")
              || (2.6 <= e.difficulty.value && s.ladder[top] == "high")
  {
    hide Rows, Rank, Lowest, Reaching, Demanding;
    var top, e := |s.ladder| - 1, s.turns[i].evidence;
    RowByNumbers(Policy(cfg), s, i);
    ReachesTopIff(s, Before(Policy(cfg), s, i), e);
    var from := Walk(s, i, true, cfg.hysteresis);
    assert Before(Policy(cfg), s, i) == from.at;
    assert Walk(s, i + 1, true, cfg.hysteresis) == Stride(s, from, s.turns[i], true, cfg.hysteresis);
    assert SentRung(Policy(cfg), s, i) == Reaching(s, Before(Policy(cfg), s, i), e, true);
    RankOfRung(s.ladder, top);
  }
}
