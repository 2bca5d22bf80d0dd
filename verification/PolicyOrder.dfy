/** How one plan answers to its evidence: order, floors and directions. */
module PolicyOrder {
  import opened Prelude
  import opened EffortPolicy

  /** A rung's position, or -1 off the ladder. */
  function Rank(ladder: seq<Effort>, e: Effort): (r: int)
    ensures -1 <= r < |ladder|
    ensures 0 <= r ==> ladder[r] == e
    ensures r < 0 <==> e !in ladder
  {
    var i := IndexOf(ladder, e);
    if i.Some? then i.value else -1
  }

  predicate NoMore(a: Option<real>, b: Option<real>) { a.None? || (b.Some? && a.value <= b.value) }

  /** `a` asks for no more than `b`, reading by reading. */
  predicate NoMoreDemanding(a: Evidence, b: Evidence) {
    && a.Answered() == b.Answered()
    && NoMore(a.difficulty, b.difficulty)
    && NoMore(a.pHard, b.pHard)
    && NoMore(a.harm, b.harm)
    && NoMore(a.corrective, b.corrective)
    && (Unreasonable(b.failureMode) ==> Unreasonable(a.failureMode))
    && (a.shortContinuation ==> b.shortContinuation)
  }

  /** The two configurations differ only in confirmations and, at most, in `a` climbing by steps. */
  predicate NoFaster(a: Cfg, b: Cfg) {
    && a.thresholds == b.thresholds
    && a.targets == b.targets
    && a.downward == b.downward
    && (a.upward == b.upward || a.upward.Step?)
  }

  function Recommended(a: Ask, at: nat): nat { if a.NoChange? then at else a.want }

  lemma TargetMonotone(ca: Cfg, cb: Cfg, rungs: seq<Effort>, ata: nat, atb: nat, a: Evidence, b: Evidence, pa: bool,
                       pb: bool)
    requires ata <= atb < |rungs| && NoFaster(ca, cb) && NoMoreDemanding(a, b) && (pa ==> pb)
    ensures Target(ca, rungs, ata, a, pa) <= Target(cb, rungs, atb, b, pb)
  {
    TargetIsStrongestReading(ca, rungs, ata, a, pa);
    TargetIsStrongestReading(cb, rungs, atb, b, pb);
    var r := Target(ca, rungs, ata, a, pa);
    if r != Min(ata + 1, |rungs| - 1) {
      assert Names(ca, rungs, a, pa, r);
      assert Names(cb, rungs, b, pb, r);
    }
  }

  lemma TargetAbove(cfg: Cfg, rungs: seq<Effort>, at: nat, ev: Evidence, protected: bool)
    requires at < |rungs|
    ensures at <= Target(cfg, rungs, at, ev, protected) < |rungs|
    ensures at < |rungs| - 1 ==> at < Target(cfg, rungs, at, ev, protected)
  {
    TargetIsStrongestReading(cfg, rungs, at, ev, protected);
  }

  lemma StanceMonotone(a: Evidence, b: Evidence, t: Thresholds)
    requires NoMoreDemanding(a, b) && a.Answered()
    ensures WantsMore(a, t) ==> WantsMore(b, t)
    ensures WantsLess(b, t) ==> WantsLess(a, t)
  {
  }

  /** Raising any reading never lowers what one turn recommends, raising pressure never
      raises it, and neither does starting lower or climbing by steps. */
  lemma RecommendationMonotone(ca: Cfg, cb: Cfg, rungs: seq<Effort>, bottom: nat, ata: nat, atb: nat,
                               a: Evidence, b: Evidence, pressureA: real, pressureB: real, pa: bool, pb: bool)
    requires bottom <= ata <= atb < |rungs|
    requires NoFaster(ca, cb) && NoMoreDemanding(a, b) && pressureA >= pressureB && (pa ==> pb)
    ensures Recommended(Decide(ca, rungs, ata, bottom, a, pressureA, pa), ata)
         <= Recommended(Decide(cb, rungs, atb, bottom, b, pressureB, pb), atb)
  {
    if a.Answered() {
      StanceMonotone(a, b, ca.thresholds);
      if WantsMore(a, ca.thresholds) {
        TargetMonotone(ca, cb, rungs, ata, atb, a, b, pa, pb);
      } else if WantsMore(b, cb.thresholds) {
        TargetAbove(cb, rungs, atb, b, pb);
      }
    }
  }

  // --- two sessions side by side -------------------------------------------

  /** Session `a` sits at or below session `b`, both at or above the floor, and where they
      share a rung `a` is at least as close to its next confirmed downgrade. */
  ghost predicate Below(ladder: seq<Effort>, bottom: nat, a: Effort, recsA: seq<Option<Effort>>, b: Effort,
                        recsB: seq<Option<Effort>>) {
    var ra, rb := Rank(ladder, a), Rank(ladder, b);
    && bottom <= ra <= rb
    && (ra == rb > bottom ==>
          ConfirmationsFor(recsB, Some(ladder[rb - 1])) <= ConfirmationsFor(recsA, Some(ladder[rb - 1])))
  }

  /** A downward recommendation that has not been asked for often enough. */
  predicate Held(cfg: Cfg, ask: Ask, recs: seq<Option<Effort>>, rec: Option<Effort>) {
    ask.Ask? && ask.direction.Down? && 1 + ConfirmationsFor(recs, rec) < cfg.Needed()
  }

  lemma ConfirmationsAfter(recs: seq<Option<Effort>>, last: Option<Effort>, effort: Option<Effort>)
    ensures ConfirmationsFor(recs + [last], effort) == if last == effort then 1 + ConfirmationsFor(recs, effort) else 0
  {
    assert (recs + [last])[..|recs|] == recs;
  }

  /** Where an ask made at position `at` leaves the session. */
  function Landing(cfg: Cfg, ladder: seq<Effort>, ask: Ask, recs: seq<Option<Effort>>, at: nat): nat
    requires Recommended(ask, at) < |ladder|
  {
    var w := Recommended(ask, at);
    if w == at || Held(cfg, ask, recs, Some(ladder[w])) then at else w
  }

  lemma WeighByPosition(cfg: Cfg, ladder: seq<Effort>, ask: Ask, recs: seq<Option<Effort>>, blank: PlanFields, at: nat)
    requires Distinct(ladder) && at < |ladder|
    requires ask.Ask? ==>
               && ask.want < |ladder| && !ask.direction.Hold?
               && (ask.target.Some? ==> ask.target.value < |ladder|)
    requires blank.action.Keep? && blank.fromEffort == blank.toEffort == blank.recommendation == Some(ladder[at])
    ensures var x := Weigh(cfg, ladder, ask, recs, blank);
            var w := Recommended(ask, at);
            && x.recommendation == Some(ladder[w])
            && x.toEffort == Some(ladder[Landing(cfg, ladder, ask, recs, at)])
            && (x.action == if Landing(cfg, ladder, ask, recs, at) == at then Keep else Change)
            && (x.action.Change? ==> x.direction == ask.direction)
  {
    if ask.Ask? {
      assert ladder[ask.want] == ladder[at] <==> ask.want == at;
      ConfirmationsAfter(recs, Some(ladder[ask.want]), Some(ladder[ask.want]));
    }
  }

  /** One plan in positions: the rung recommended, and the rung it leaves the session at. */
  lemma PlanByPosition(cfg: Cfg, ladder: seq<Effort>, c: Effort, base: Option<Effort>, floor: Option<Effort>,
                       ev: Evidence, recs: seq<Option<Effort>>, pressure: real, protected: bool)
    returns (ask: Ask, w: nat, to: nat)
    requires Distinct(ladder) && c in ladder && |ladder| >= 2
    ensures ask == Decide(cfg, ladder, Rank(ladder, c), Bottom(ladder, floor), ev, Clamp(pressure), protected)
    ensures w == Recommended(ask, Rank(ladder, c)) < |ladder|
    ensures to == Landing(cfg, ladder, ask, recs, Rank(ladder, c))
    ensures Rank(ladder, ladder[to]) == to
    ensures var x := Plan(cfg, ladder, Some(c), base, floor, ev, recs, pressure, protected);
            && x.recommendation == Some(ladder[w])
            && x.toEffort == Some(ladder[to])
            && x.action == (if to == Rank(ladder, c) then Keep else Change)
            && (x.action.Change? ==> x.direction == ask.direction)
  {
    var at := Rank(ladder, c);
    ask := Decide(cfg, ladder, at, Bottom(ladder, floor), ev, Clamp(pressure), protected);
    w := Recommended(ask, at);
    to := Landing(cfg, ladder, ask, recs, at);
    WeighByPosition(cfg, ladder, ask, recs, Blank(cfg, ladder, Some(c), base, floor, pressure), at);
    IndexOfDistinct(ladder, to);
  }

  /** An ask made at or above the floor moves the way it says, one rung at a time downward. */
  ghost predicate StepShaped(ask: Ask, at: nat, bottom: nat) {
    ask.Ask? ==>
      && !ask.direction.Hold?
      && (ask.direction.Up? ==> at <= ask.want)
      && (ask.direction.Down? ==> ask.want == Max(at - 1, bottom))
  }

  lemma DecideIsStepShaped(cfg: Cfg, rungs: seq<Effort>, at: nat, bottom: nat, ev: Evidence, pressure: real,
                           protected: bool)
    requires bottom <= at < |rungs| && cfg.downward.Step?
    ensures StepShaped(Decide(cfg, rungs, at, bottom, ev, pressure, protected), at, bottom)
  {
    TargetAbove(cfg, rungs, at, ev, protected);
  }

  lemma LandingKeepsBelow(ca: Cfg, cb: Cfg, ladder: seq<Effort>, bottom: nat, ra: nat, rb: nat, da: Ask, db: Ask,
                          recsA: seq<Option<Effort>>, recsB: seq<Option<Effort>>)
    requires Distinct(ladder) && bottom <= ra <= rb < |ladder| && ca.Needed() <= cb.Needed()
    requires StepShaped(da, ra, bottom) && StepShaped(db, rb, bottom)
    requires Recommended(da, ra) <= Recommended(db, rb) < |ladder|
    requires ra == rb > bottom ==>
               ConfirmationsFor(recsB, Some(ladder[rb - 1])) <= ConfirmationsFor(recsA, Some(ladder[rb - 1]))
    ensures var ia, ib := Landing(ca, ladder, da, recsA, ra), Landing(cb, ladder, db, recsB, rb);
            && bottom <= ia <= ib
            && (ia == ib > bottom ==> (
                    ConfirmationsFor(recsB + [Some(ladder[Recommended(db, rb)])], Some(ladder[ib - 1]))
                 <= ConfirmationsFor(recsA + [Some(ladder[Recommended(da, ra)])], Some(ladder[ib - 1]))))
  {
    var wa, wb := Recommended(da, ra), Recommended(db, rb);
    var ia, ib := Landing(ca, ladder, da, recsA, ra), Landing(cb, ladder, db, recsB, rb);
    if ia == ib > bottom {
      var next := Some(ladder[ib - 1]);
      ConfirmationsAfter(recsA, Some(ladder[wa]), next);
      ConfirmationsAfter(recsB, Some(ladder[wb]), next);
      assert ladder[wb] == ladder[ib - 1] ==> wb == ib - 1;
    }
  }

  /** A ladder of one rung leaves nothing to plan. */
  lemma NothingToPlan(ca: Cfg, cb: Cfg, ladder: seq<Effort>, floor: Option<Effort>,
                      baseA: Option<Effort>, baseB: Option<Effort>,
                      a: Effort, recsA: seq<Option<Effort>>, b: Effort, recsB: seq<Option<Effort>>,
                      ea: Evidence, eb: Evidence, pressureA: real, pressureB: real, pa: bool, pb: bool)
    requires Distinct(ladder) && |ladder| < 2
    requires Below(ladder, Bottom(ladder, floor), a, recsA, b, recsB)
    ensures var x := Plan(ca, ladder, Some(a), baseA, floor, ea, recsA, pressureA, pa);
            var y := Plan(cb, ladder, Some(b), baseB, floor, eb, recsB, pressureB, pb);
            && x.toEffort.Some? && x.toEffort.value in ladder
            && y.toEffort.Some? && y.toEffort.value in ladder
            && Below(ladder, Bottom(ladder, floor), x.toEffort.value, recsA + [x.recommendation], y.toEffort.value,
                     recsB + [y.recommendation])
  {}

  /** One turn keeps the order. This is where `downward: step` is needed. */
  lemma PlanKeepsBelow(ca: Cfg, cb: Cfg, ladder: seq<Effort>, floor: Option<Effort>,
                       baseA: Option<Effort>, baseB: Option<Effort>,
                       a: Effort, recsA: seq<Option<Effort>>, b: Effort, recsB: seq<Option<Effort>>,
                       ea: Evidence, eb: Evidence, pressureA: real, pressureB: real, pa: bool, pb: bool)
    requires Distinct(ladder)
    requires Below(ladder, Bottom(ladder, floor), a, recsA, b, recsB)
    requires NoFaster(ca, cb) && ca.downward.Step? && ca.Needed() <= cb.Needed()
    requires NoMoreDemanding(ea, eb) && pressureA >= pressureB && (pa ==> pb)
    ensures var x := Plan(ca, ladder, Some(a), baseA, floor, ea, recsA, pressureA, pa);
            var y := Plan(cb, ladder, Some(b), baseB, floor, eb, recsB, pressureB, pb);
            && x.toEffort.Some? && x.toEffort.value in ladder
            && y.toEffort.Some? && y.toEffort.value in ladder
            && Below(ladder, Bottom(ladder, floor), x.toEffort.value, recsA + [x.recommendation], y.toEffort.value,
                     recsB + [y.recommendation])
  {
    hide Plan, Decide, ConfirmationsFor, NoMoreDemanding;
    if |ladder| < 2 {
      NothingToPlan(ca, cb, ladder, floor, baseA, baseB, a, recsA, b, recsB, ea, eb, pressureA, pressureB, pa, pb);
    } else {
      var bottom, ra, rb := Bottom(ladder, floor), Rank(ladder, a), Rank(ladder, b);
      RecommendationMonotone(ca, cb, ladder, bottom, ra, rb, ea, eb, Clamp(pressureA), Clamp(pressureB), pa, pb);
      DecideIsStepShaped(ca, ladder, ra, bottom, ea, Clamp(pressureA), pa);
      DecideIsStepShaped(cb, ladder, rb, bottom, eb, Clamp(pressureB), pb);
      var da, wa, ia := PlanByPosition(ca, ladder, a, baseA, floor, ea, recsA, pressureA, pa);
      var db, wb, ib := PlanByPosition(cb, ladder, b, baseB, floor, eb, recsB, pressureB, pb);
      LandingKeepsBelow(ca, cb, ladder, bottom, ra, rb, da, db, recsA, recsB);
    }
  }

  // --- one plan on its own -------------------------------------------------

  /** At this rung, ladder and floor no more demanding evidence ever lands on a higher rung, whatever the
      history, the base, the quota pressure and the admission rule. */
  ghost predicate MonotoneAt(cfg: Cfg, ladder: seq<Effort>, c: Effort, floor: Option<Effort>) {
    forall base: Option<Effort>, a: Evidence, b: Evidence, recs: seq<Option<Effort>>, pressure: real, protected: bool
      | NoMoreDemanding(a, b) ::
      PlannedRank(cfg, ladder, c, base, floor, a, recs, pressure, protected)
      <= PlannedRank(cfg, ladder, c, base, floor, b, recs, pressure, protected)
  }

  function PlannedRank(cfg: Cfg, ladder: seq<Effort>, c: Effort, base: Option<Effort>, floor: Option<Effort>,
                       ev: Evidence, recs: seq<Option<Effort>>, pressure: real, protected: bool): int
  {
    var to := Plan(cfg, ladder, Some(c), base, floor, ev, recs, pressure, protected).toEffort;
    if to.Some? then Rank(ladder, to.value) else -1
  }

  /** Where a downgrade has one place to go, or goes there at once. */
  predicate OneWayDown(cfg: Cfg, ladder: seq<Effort>, c: Effort, floor: Option<Effort>) {
    cfg.downward.Step? || cfg.Needed() <= 1 || Rank(ladder, c) <= Bottom(ladder, floor) + 1
  }

  /** The applied effort answers to the evidence exactly in these sessions: from the floor up, where a
      downgrade goes one rung at a time, needs no waiting or has only the floor to go to; and below the floor,
      where quota pressure counts as reached even at none. Otherwise a turn that argues for less lifts a
      session to its floor while a vaguer one leaves it, or restarts a count that pressure had nearly
      finished. */
  lemma {:induction false} MonotoneAtIff(cfg: Cfg, ladder: seq<Effort>, c: Effort, floor: Option<Effort>)
    requires Distinct(ladder) && |ladder| >= 2 && c in ladder && cfg.thresholds.quotaPressureAt <= 1.0
    ensures MonotoneAt(cfg, ladder, c, floor) <==>
              if Rank(ladder, c) < Bottom(ladder, floor) then cfg.thresholds.quotaPressureAt <= 0.0
              else OneWayDown(cfg, ladder, c, floor)
  {
    hide MonotoneAt, PlannedRank;
    if Rank(ladder, c) < Bottom(ladder, floor) {
      if cfg.thresholds.quotaPressureAt <= 0.0 {
        AnyTurnLifts(cfg, ladder, c, floor);
      } else {
        VagueTurnStays(cfg, ladder, c, floor);
      }
    } else {
      if OneWayDown(cfg, ladder, c, floor) {
        OneWayIsMonotone(cfg, ladder, c, floor);
      } else {
        JumpKeepsHigherRung(cfg, ladder, c, floor);
      }
    }
  }

  lemma {:induction false} OneWayIsMonotone(cfg: Cfg, ladder: seq<Effort>, c: Effort, floor: Option<Effort>)
    requires Distinct(ladder) && |ladder| >= 2 && c in ladder
    requires Bottom(ladder, floor) <= Rank(ladder, c) && OneWayDown(cfg, ladder, c, floor)
    ensures MonotoneAt(cfg, ladder, c, floor)
  {
    hide Plan, Decide, NoMoreDemanding;
    forall base: Option<Effort>, a: Evidence, b: Evidence, recs: seq<Option<Effort>>, pressure: real, protected: bool
      | NoMoreDemanding(a, b)
      ensures PlannedRank(cfg, ladder, c, base, floor, a, recs, pressure, protected)
           <= PlannedRank(cfg, ladder, c, base, floor, b, recs, pressure, protected)
    {
      var r, bottom, p := Rank(ladder, c), Bottom(ladder, floor), Clamp(pressure);
      RecommendationMonotone(cfg, cfg, ladder, bottom, r, r, a, b, p, p, protected, protected);
      var da, wa, ia := PlanByPosition(cfg, ladder, c, base, floor, a, recs, pressure, protected);
      var db, wb, ib := PlanByPosition(cfg, ladder, c, base, floor, b, recs, pressure, protected);
      DownwardWants(cfg, ladder, r, bottom, a, p, protected);
      DownwardWants(cfg, ladder, r, bottom, b, p, protected);
    }
  }

  /** What an ask wants, by its direction. */
  lemma DownwardWants(cfg: Cfg, rungs: seq<Effort>, at: nat, bottom: nat, ev: Evidence, pressure: real, protected: bool)
    requires at < |rungs| && bottom < |rungs|
    ensures var ask := Decide(cfg, rungs, at, bottom, ev, pressure, protected);
            && (ask.Ask? && ask.direction.Up? ==> at <= ask.want && bottom <= ask.want)
            && (ask.Ask? && ask.direction.Down? ==>
                  ask.want == Max(at - 1, bottom) || (cfg.downward.Jump? && ask.want == bottom))
            && (ask.Ask? ==> !ask.direction.Hold?)
  {
    TargetAbove(cfg, rungs, at, ev, protected);
  }

  /** Below the floor, with pressure always counted as reached, every answered turn asks for the floor or more. */
  lemma {:induction false} AnyTurnLifts(cfg: Cfg, ladder: seq<Effort>, c: Effort, floor: Option<Effort>)
    requires Distinct(ladder) && |ladder| >= 2 && c in ladder
    requires Rank(ladder, c) < Bottom(ladder, floor) && cfg.thresholds.quotaPressureAt <= 0.0
    ensures MonotoneAt(cfg, ladder, c, floor)
  {
    hide Plan, Target;
    forall base: Option<Effort>, a: Evidence, b: Evidence, recs: seq<Option<Effort>>, pressure: real, protected: bool
      | NoMoreDemanding(a, b)
      ensures PlannedRank(cfg, ladder, c, base, floor, a, recs, pressure, protected)
           <= PlannedRank(cfg, ladder, c, base, floor, b, recs, pressure, protected)
    {
      var r := Rank(ladder, c);
      var da, wa, ia := PlanByPosition(cfg, ladder, c, base, floor, a, recs, pressure, protected);
      var db, wb, ib := PlanByPosition(cfg, ladder, c, base, floor, b, recs, pressure, protected);
      if a.Answered() {
        StanceMonotone(a, b, cfg.thresholds);
        TargetMonotone(cfg, cfg, ladder, r, r, a, b, protected, protected);
      }
    }
  }

  /** Below the floor an easy turn that has been asked for often enough lifts the session to the floor, and a
      vaguer one leaves it where it is. */
  lemma {:induction false} VagueTurnStays(cfg: Cfg, ladder: seq<Effort>, c: Effort, floor: Option<Effort>)
    requires Distinct(ladder) && |ladder| >= 2 && c in ladder
    requires Rank(ladder, c) < Bottom(ladder, floor) && cfg.thresholds.quotaPressureAt > 0.0
    ensures !MonotoneAt(cfg, ladder, c, floor)
  {
    hide Plan, Target;
    var easy, vague := EasyAndVague(cfg.thresholds);
    var bottom := Bottom(ladder, floor);
    var recs := Asked(Some(ladder[bottom]), cfg.Needed());
    var da, wa, ia := PlanByPosition(cfg, ladder, c, None, floor, easy, recs, 0.0, false);
    var db, wb, ib := PlanByPosition(cfg, ladder, c, None, floor, vague, recs, 0.0, false);
    assert ia == bottom && ib == Rank(ladder, c);
    assert PlannedRank(cfg, ladder, c, None, floor, easy, recs, 0.0, false)
         > PlannedRank(cfg, ladder, c, None, floor, vague, recs, 0.0, false);
  }

  /** From the floor up, in every session: no more demanding evidence never lands on a higher rung. */
  ghost predicate AppliedMonotone(cfg: Cfg) {
    forall ladder: seq<Effort>, c: Effort, floor: Option<Effort>
      | Distinct(ladder) && |ladder| >= 2 && Rank(ladder, c) >= Bottom(ladder, floor) ::
      MonotoneAt(cfg, ladder, c, floor)
  }

  /** Over all sessions that stand at or above their floor, the applied effort answers to the evidence exactly
      when a downgrade is one rung at a time or needs no waiting. */
  lemma {:induction false} AppliedMonotoneIff(cfg: Cfg)
    requires cfg.thresholds.quotaPressureAt <= 1.0
    ensures AppliedMonotone(cfg) <==> cfg.downward.Step? || cfg.Needed() <= 1
  {
    hide MonotoneAt, Bottom, Rank;
    forall ladder: seq<Effort>, c: Effort, floor: Option<Effort>
      | Distinct(ladder) && |ladder| >= 2 && Rank(ladder, c) >= Bottom(ladder, floor)
      ensures cfg.downward.Step? || cfg.Needed() <= 1 ==> MonotoneAt(cfg, ladder, c, floor)
    {
      OnLadder(ladder, c, floor);
      MonotoneAtIff(cfg, ladder, c, floor);
    }
    var ladder, c := ThreeRungs();
    MonotoneAtIff(cfg, ladder, c, None);
  }

  lemma OnLadder(ladder: seq<Effort>, c: Effort, floor: Option<Effort>)
    requires Rank(ladder, c) >= Bottom(ladder, floor)
    ensures c in ladder
  {}

  lemma ThreeRungs() returns (ladder: seq<Effort>, c: Effort)
    ensures Distinct(ladder) && |ladder| == 3 && c in ladder && Rank(ladder, c) == 2 && Bottom(ladder, None) == 0
  {
    ladder, c := ["l", "m", "h"], "h";
    assert ladder[0] == "l" && ladder[1] == "m" && ladder[2] == "h";
    assert "l"[0] != "m"[0] && "m"[0] != "h"[0] && "l"[0] != "h"[0];
    IndexOfDistinct(ladder, 2);
  }

  /** `n` earlier turns that all asked for `e`. */
  function Asked(e: Option<Effort>, n: nat): (s: seq<Option<Effort>>)
    ensures |s| == n && ConfirmationsFor(s, e) == n
  {
    if n == 0 then [] else
      var s := Asked(e, n - 1) + [e];
      assert s[..n - 1] == Asked(e, n - 1);
      s
  }

  /** Whatever the thresholds, some turn argues for less and a vaguer one for nothing. */
  lemma EasyAndVague(t: Thresholds) returns (easy: Evidence, vague: Evidence)
    ensures easy.Answered() && WantsLess(easy, t) && !WantsMore(easy, t)
    ensures vague.Answered() && !WantsLess(vague, t) && !WantsMore(vague, t)
    ensures NoMoreDemanding(easy, vague)
  {
    var d := if t.downgradeDifficulty < t.upgradeDifficulty then t.downgradeDifficulty else t.upgradeDifficulty - 1.0;
    var h := if t.downgradeHarm < t.upgradeHarm then t.downgradeHarm else t.upgradeHarm - 1.0;
    easy := Evidence(Some(d), None, Some(h), None, None, false, "");
    vague := easy.(shortContinuation := true);
  }

  /** With `downward: jump` and waiting, from two rungs above the floor on, a turn that argues for the floor
      restarts a count that quota pressure had nearly finished, and keeps the higher rung. */
  lemma {:induction false} JumpKeepsHigherRung(cfg: Cfg, ladder: seq<Effort>, c: Effort, floor: Option<Effort>)
    requires cfg.thresholds.quotaPressureAt <= 1.0 && cfg.downward.Jump? && cfg.Needed() >= 2
    requires Distinct(ladder) && |ladder| >= 2 && c in ladder && Rank(ladder, c) > Bottom(ladder, floor) + 1
    ensures !MonotoneAt(cfg, ladder, c, floor)
  {
    hide Plan, Target;
    var easy, vague := EasyAndVague(cfg.thresholds);
    var r, bottom := Rank(ladder, c), Bottom(ladder, floor);
    var recs := Asked(Some(ladder[r - 1]), cfg.Needed() - 1);
    var da, _, ia := PlanByPosition(cfg, ladder, c, None, floor, easy, recs, 1.0, false);
    var db, _, ib := PlanByPosition(cfg, ladder, c, None, floor, vague, recs, 1.0, false);
    assert da == Ask(Down, bottom, Some(bottom)) && db == Ask(Down, r - 1, None);
    ConfirmationsAreLongestSuffix(recs, Some(ladder[r - 1]));
    assert recs[|recs| - 1] != Some(ladder[bottom]);
    assert ia == r && ib == r - 1;
    assert PlannedRank(cfg, ladder, c, None, floor, easy, recs, 1.0, false)
         > PlannedRank(cfg, ladder, c, None, floor, vague, recs, 1.0, false);
  }

  /** A change in the downward direction lowers the effort exactly when the session was at or
      above the floor; below it, the same branch lifts the session to the floor. */
  lemma DownwardChangeDescendsIff(cfg: Cfg, ladder: seq<Effort>, c: Effort, base: Option<Effort>, floor: Option<Effort>,
                                  ev: Evidence, recs: seq<Option<Effort>>, pressure: real, protected: bool)
    requires Distinct(ladder) && c in ladder && |ladder| >= 2
    requires var x := Plan(cfg, ladder, Some(c), base, floor, ev, recs, pressure, protected);
             x.action.Change? && x.direction.Down?
    ensures PlannedRank(cfg, ladder, c, base, floor, ev, recs, pressure, protected) < Rank(ladder, c) <==>
              Bottom(ladder, floor) <= Rank(ladder, c)
    ensures Rank(ladder, c) < Bottom(ladder, floor) ==>
              PlannedRank(cfg, ladder, c, base, floor, ev, recs, pressure, protected) == Bottom(ladder, floor)
  {
    var ask, w, to := PlanByPosition(cfg, ladder, c, base, floor, ev, recs, pressure, protected);
    assert to == w == ask.want && ask.direction.Down?;
  }

  /** Nothing in the turn speaks, so the plan keeps the current effort before the floor is looked at. */
  predicate Silent(cfg: Cfg, ev: Evidence, pressure: real) {
    || !ev.Answered()
    || (!WantsMore(ev, cfg.thresholds) && !WantsLess(ev, cfg.thresholds) &&
        Clamp(pressure) < cfg.thresholds.quotaPressureAt)
  }

  /** A recommendation lies below the floor exactly when the session already runs below it
      and nothing in the turn speaks. */
  lemma RecommendationBelowFloorIff(cfg: Cfg, ladder: seq<Effort>, c: Effort, base: Option<Effort>,
                                    floor: Option<Effort>,
                                    ev: Evidence, recs: seq<Option<Effort>>, pressure: real, protected: bool)
    requires Distinct(ladder) && c in ladder && |ladder| >= 2
    ensures var rec := Plan(cfg, ladder, Some(c), base, floor, ev, recs, pressure, protected).recommendation;
            && rec.Some?
            && (Rank(ladder, rec.value) < Bottom(ladder, floor) <==>
                  Rank(ladder, c) < Bottom(ladder, floor) && Silent(cfg, ev, pressure))
  {
    var ask, w, to := PlanByPosition(cfg, ladder, c, base, floor, ev, recs, pressure, protected);
    IndexOfDistinct(ladder, w);
  }
}
