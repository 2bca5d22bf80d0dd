/** One plan read off the turn's own numbers: when it goes which way, how far, and when it waits. */
module Readings {
  import opened Prelude
  import opened EffortPolicy
  import opened PolicyOrder

  /** There is a rung to move to, the session stands on one, and the turn is known. */
  ghost predicate Plannable(ladder: seq<Effort>, current: Option<Effort>, ev: Evidence) {
    && |ladder| >= 2 && current.Some? && current.value in ladder
    && ev.error == "" && ev.difficulty.Some? && ev.harm.Some?
  }

  /** One of the four readings that argue upward meets its bar. */
  ghost predicate MeetsUpwardBar(ev: Evidence, t: Thresholds) {
    || (ev.difficulty.Some? && t.upgradeDifficulty <= ev.difficulty.value)
    || (ev.pHard.Some? && t.upgradePHard <= ev.pHard.value)
    || (ev.harm.Some? && t.upgradeHarm <= ev.harm.value)
    || NamesDefect(ev, t.correctiveFollowup)
  }

  /** Difficulty and harm are at or below their bars, and neither a short continuation nor a named defect speaks
      against it, whatever failed. */
  ghost predicate IsEasy(ev: Evidence, t: Thresholds) {
    && !ev.shortContinuation
    && ev.difficulty.Some? && ev.difficulty.value <= t.downgradeDifficulty
    && ev.harm.Some? && ev.harm.value <= t.downgradeHarm
    && (ev.corrective.Some? ==> ev.corrective.value < t.correctiveFollowup)
  }

  /** Pressure, which is read between 0 and 1, meets its bar. */
  ghost predicate IsScarce(pressure: real, t: Thresholds) {
    t.quotaPressureAt <= 0.0 || (t.quotaPressureAt <= pressure && t.quotaPressureAt <= 1.0)
  }

  lemma StancesByReadings(ev: Evidence, t: Thresholds, pressure: real)
    ensures WantsMore(ev, t) <==> MeetsUpwardBar(ev, t)
    ensures WantsLess(ev, t) <==> IsEasy(ev, t)
    ensures Clamp(pressure) >= t.quotaPressureAt <==> IsScarce(pressure, t)
  {}

  /** Which way one plan goes. Up exactly when a bar that argues upward is met and there is a rung above. Down
      exactly when none is, the turn is easy or the provider scarce, and the session does not stand on its lowest
      rung. */
  lemma {:induction false} DirectionByReadings(cfg: Cfg, ladder: seq<Effort>, current: Option<Effort>,
                                               base: Option<Effort>, floor: Option<Effort>, ev: Evidence,
                                               recs: seq<Option<Effort>>, pressure: real, protected: bool)
    requires Distinct(ladder)
    ensures var x, t := Plan(cfg, ladder, current, base, floor, ev, recs, pressure, protected), cfg.thresholds;
            var plannable := Plannable(ladder, current, ev);
            && (x.direction.Up? <==>
                  plannable && MeetsUpwardBar(ev, t) && current.value != ladder[|ladder| - 1])
            && (x.direction.Down? <==>
                  && plannable && !MeetsUpwardBar(ev, t) && (IsEasy(ev, t) || IsScarce(pressure, t))
                  && current.value != (if floor.Some? && floor.value in ladder then floor.value else ladder[0]))
  {
    hide Decide, Weigh, MeetsUpwardBar, IsEasy, IsScarce, WantsMore, WantsLess, Clamp;
    StancesByReadings(ev, cfg.thresholds, pressure);
    if |ladder| >= 2 && current.Some? && current.value in ladder {
      var at, bottom := IndexOf(ladder, current.value).value, Bottom(ladder, floor);
      var ask := Decide(cfg, ladder, at, bottom, ev, Clamp(pressure), protected);
      WeighDirects(cfg, ladder, ask, recs, Blank(cfg, ladder, current, base, floor, pressure), at);
      AskMoves(cfg, ladder, at, bottom, ev, Clamp(pressure), protected);
      IndexOfDistinct(ladder, bottom);
    }
  }

  lemma WeighDirects(cfg: Cfg, ladder: seq<Effort>, ask: Ask, recs: seq<Option<Effort>>, blank: PlanFields, at: nat)
    requires Distinct(ladder) && at < |ladder|
    requires ask.Ask? ==> ask.want < |ladder| && (ask.target.Some? ==> ask.target.value < |ladder|)
    requires blank.direction.Hold? && blank.fromEffort == Some(ladder[at])
    ensures Weigh(cfg, ladder, ask, recs, blank).direction ==
              if ask.Ask? && ask.want != at then ask.direction else Hold
  {
    hide ConfirmationsFor;
    assert ask.Ask? ==> (ladder[ask.want] == ladder[at] <==> ask.want == at);
  }

  lemma AskMoves(cfg: Cfg, rungs: seq<Effort>, at: nat, bottom: nat, ev: Evidence, pressure: real, protected: bool)
    requires at < |rungs| && bottom < |rungs|
    ensures var ask := Decide(cfg, rungs, at, bottom, ev, pressure, protected);
            && (ask.Ask? && ask.want != at && ask.direction.Up? <==>
                  ev.Answered() && WantsMore(ev, cfg.thresholds) && at + 1 < |rungs|)
            && (ask.Ask? && ask.want != at && ask.direction.Down? <==>
                  && ev.Answered() && !WantsMore(ev, cfg.thresholds) && at != bottom
                  && (WantsLess(ev, cfg.thresholds) || pressure >= cfg.thresholds.quotaPressureAt))
            && (ask.Ask? ==> !ask.direction.Hold?)
  {
    hide Target, WantsMore, WantsLess;
    TargetAbove(cfg, rungs, at, ev, protected);
  }

  /** A session's short continuation is never a reason to lower its effort: without scarcity it stays or rises. */
  lemma {:induction false} ShortContinuationNeverLowers(cfg: Cfg, ladder: seq<Effort>, c: Effort, base: Option<Effort>,
                                                        floor: Option<Effort>, ev: Evidence,
                                                        recs: seq<Option<Effort>>, pressure: real, protected: bool)
    requires Distinct(ladder) && c in ladder && ev.shortContinuation && !IsScarce(pressure, cfg.thresholds)
    ensures var x := Plan(cfg, ladder, Some(c), base, floor, ev, recs, pressure, protected);
            x.toEffort.Some? && Rank(ladder, c) <= Rank(ladder, x.toEffort.value)
  {
    hide Plan, Target, WantsMore, WantsLess, Clamp, Rank;
    StancesByReadings(ev, cfg.thresholds, pressure);
    if |ladder| >= 2 {
      var ask, w, to := PlanByPosition(cfg, ladder, c, base, floor, ev, recs, pressure, protected);
      TargetAbove(cfg, ladder, Rank(ladder, c), ev, protected);
    } else {
      TooShort(cfg, ladder, c, base, floor, ev, recs, pressure, protected);
    }
  }

  lemma TooShort(cfg: Cfg, ladder: seq<Effort>, c: Effort, base: Option<Effort>, floor: Option<Effort>, ev: Evidence,
                 recs: seq<Option<Effort>>, pressure: real, protected: bool)
    requires |ladder| < 2
    ensures Plan(cfg, ladder, Some(c), base, floor, ev, recs, pressure, protected).toEffort == Some(c)
  {}

  /** A rung something in the turn asks for: the next one, the lowest allowed, or, when climbing goes by jumps, one
      the evidence names. */
  ghost predicate AsksFor(cfg: Cfg, ladder: seq<Effort>, at: int, bottom: nat, ev: Evidence, protected: bool, i: nat)
    requires ladder != []
  {
    i == Min(at + 1, |ladder| - 1) || i == bottom || (cfg.upward.Jump? && Names(cfg, ladder, ev, protected, i))
  }

  /** The last `n` turns all asked for this. */
  ghost predicate AskedLately(recs: seq<Option<Effort>>, rec: Option<Effort>, n: nat) {
    n <= |recs| && forall k | |recs| - n <= k < |recs| :: recs[k] == rec
  }

  lemma {:induction false} AskedLatelyIff(recs: seq<Option<Effort>>, rec: Option<Effort>, n: nat)
    ensures AskedLately(recs, rec, n) <==> n <= ConfirmationsFor(recs, rec)
  {
    ConfirmationsAreLongestSuffix(recs, rec);
  }

  /** How far one plan goes, and whether at once. An upward plan recommends the strongest rung anything asks for and
      takes it at once. A downward one recommends one rung down, or the lowest where an easy turn may go all the way,
      never below the floor, and takes it exactly when enough turns before it asked for the same. Any other plan
      recommends the rung it stands on. */
  lemma {:induction false} LandingByReadings(cfg: Cfg, ladder: seq<Effort>, c: Effort, base: Option<Effort>,
                                             floor: Option<Effort>, ev: Evidence, recs: seq<Option<Effort>>,
                                             pressure: real, protected: bool)
    requires Distinct(ladder) && Plannable(ladder, Some(c), ev)
    ensures var x, t := Plan(cfg, ladder, Some(c), base, floor, ev, recs, pressure, protected), cfg.thresholds;
            var at, bottom := Rank(ladder, c), if floor.Some? && floor.value in ladder then Rank(ladder, floor.value)
                                               else 0;
            && x.recommendation.Some?
            && var w := Rank(ladder, x.recommendation.value);
               && 0 <= w
               && (if MeetsUpwardBar(ev, t) then
                     && AsksFor(cfg, ladder, at, bottom, ev, protected, w)
                     && forall i: nat | AsksFor(cfg, ladder, at, bottom, ev, protected, i) :: i <= w
                   else if IsEasy(ev, t) then w == (if cfg.downward.Step? then Max(at - 1, bottom) else bottom)
                   else w == (if IsScarce(pressure, t) then Max(at - 1, bottom) else at))
               && (x.action.Change? <==>
                     w != at &&
                     (MeetsUpwardBar(ev, t) || !cfg.hysteresis ||
                      AskedLately(recs, x.recommendation, Max(cfg.confirmations - 1, 0))))
               && x.toEffort == (if x.action.Change? then x.recommendation else Some(c))
               && !x.action.Blocked?
  {
    hide Plan, Target, MeetsUpwardBar, IsEasy, IsScarce, WantsMore, WantsLess, Clamp, Rank, ConfirmationsFor,
         AskedLately, Names;
    StancesByReadings(ev, cfg.thresholds, pressure);
    var ask, w, to := PlanByPosition(cfg, ladder, c, base, floor, ev, recs, pressure, protected);
    var at, bottom := Rank(ladder, c), Bottom(ladder, floor);
    TargetIsStrongestReading(cfg, ladder, at, ev, protected);
    IndexOfDistinct(ladder, bottom);
    RankOfRung(ladder, w);
    RankOfRung(ladder, bottom);
    AskedLatelyIff(recs, Some(ladder[w]), Max(cfg.confirmations - 1, 0));
  }

  /** What else a plan records, whether it could decide or not: the effort it came from, the base, the floor and the
      ladder as they were handed in, and the pressure cut to the unit scale. */
  lemma {:induction false} FactsByReadings(cfg: Cfg, ladder: seq<Effort>, current: Option<Effort>,
                                           base: Option<Effort>, floor: Option<Effort>, ev: Evidence,
                                           recs: seq<Option<Effort>>, pressure: real, protected: bool)
    ensures var x := Plan(cfg, ladder, current, base, floor, ev, recs, pressure, protected);
            && x.fromEffort == current && x.baseEffort == base && x.floor == floor && x.ladder == ladder
            && x.needed == (if cfg.hysteresis then cfg.confirmations else 1)
            && 0.0 <= x.pressure <= 1.0 && (0.0 <= pressure <= 1.0 ==> x.pressure == pressure)
            && (pressure < 0.0 ==> x.pressure == 0.0) && (pressure > 1.0 ==> x.pressure == 1.0)
            && (!Plannable(ladder, current, ev) ==> x.toEffort == x.recommendation == current && x.action.Keep?)
  {
    hide Decide, Weigh;
    if |ladder| >= 2 && current.Some? && current.value in ladder {
      var at, blank := IndexOf(ladder, current.value).value, Blank(cfg, ladder, current, base, floor, pressure);
      var ask := Decide(cfg, ladder, at, Bottom(ladder, floor), ev, Clamp(pressure), protected);
      WeighKeeps(cfg, ladder, ask, recs, blank);
      if !Plannable(ladder, current, ev) {
        UnansweredAsksNothing(cfg, ladder, at, Bottom(ladder, floor), ev, Clamp(pressure), protected);
      }
    }
  }

  lemma WeighKeeps(cfg: Cfg, ladder: seq<Effort>, ask: Ask, recs: seq<Option<Effort>>, blank: PlanFields)
    requires ask.Ask? ==> ask.want < |ladder| && (ask.target.Some? ==> ask.target.value < |ladder|)
    ensures var x := Weigh(cfg, ladder, ask, recs, blank);
            && x.fromEffort == blank.fromEffort && x.baseEffort == blank.baseEffort && x.floor == blank.floor
            && x.ladder == blank.ladder && x.needed == blank.needed && x.pressure == blank.pressure
            && (ask.NoChange? ==> x == blank)
  {
    hide ConfirmationsFor;
  }

  lemma UnansweredAsksNothing(cfg: Cfg, ladder: seq<Effort>, at: nat, bottom: nat, ev: Evidence, pressure: real,
                              protected: bool)
    requires at < |ladder| && bottom < |ladder| && !ev.Answered()
    ensures Decide(cfg, ladder, at, bottom, ev, pressure, protected).NoChange?
  {}

  /** The target is what an upward or an easy turn reaches for. It is recommended, unless the floor lies above it and
      is recommended instead. A turn that is only scarce has none. */
  lemma {:induction false} TargetByReadings(cfg: Cfg, ladder: seq<Effort>, c: Effort, base: Option<Effort>,
                                            floor: Option<Effort>, ev: Evidence, recs: seq<Option<Effort>>,
                                            pressure: real, protected: bool)
    requires Distinct(ladder) && c in ladder
    ensures var x, t := Plan(cfg, ladder, Some(c), base, floor, ev, recs, pressure, protected), cfg.thresholds;
            && (x.target.Some? <==>
                  Plannable(ladder, Some(c), ev) && (MeetsUpwardBar(ev, t) || IsEasy(ev, t)))
            && (x.target.Some? ==>
                  && x.target.value in ladder && x.recommendation.Some?
                  && (x.recommendation == x.target ||
                      (x.recommendation == floor &&
                       Rank(ladder, x.target.value) < Rank(ladder, x.recommendation.value))))
  {
    hide Decide, Weigh, MeetsUpwardBar, IsEasy, IsScarce, WantsMore, WantsLess, Clamp, Rank;
    StancesByReadings(ev, cfg.thresholds, pressure);
    if |ladder| >= 2 {
      var at, bottom := IndexOf(ladder, c).value, Bottom(ladder, floor);
      var ask := Decide(cfg, ladder, at, bottom, ev, Clamp(pressure), protected);
      AskTargets(cfg, ladder, at, bottom, ev, Clamp(pressure), protected);
      WeighAims(cfg, ladder, ask, recs, Blank(cfg, ladder, Some(c), base, floor, pressure));
      RankOfRung(ladder, bottom);
      if ask.Ask? && ask.target.Some? {
        RankOfRung(ladder, ask.target.value);
      }
    }
  }

  lemma AskTargets(cfg: Cfg, rungs: seq<Effort>, at: nat, bottom: nat, ev: Evidence, pressure: real, protected: bool)
    requires at < |rungs| && bottom < |rungs|
    ensures var ask := Decide(cfg, rungs, at, bottom, ev, pressure, protected);
            && (ask.Ask? && ask.target.Some? <==>
                  ev.Answered() && (WantsMore(ev, cfg.thresholds) || WantsLess(ev, cfg.thresholds)))
            && (ask.Ask? && ask.target.Some? ==> ask.want == Max(ask.target.value, bottom))
  {
    hide Target, WantsMore, WantsLess;
  }

  lemma WeighAims(cfg: Cfg, ladder: seq<Effort>, ask: Ask, recs: seq<Option<Effort>>, blank: PlanFields)
    requires ask.Ask? ==> ask.want < |ladder| && (ask.target.Some? ==> ask.target.value < |ladder|)
    requires blank.target.None?
    ensures var x := Weigh(cfg, ladder, ask, recs, blank);
            && x.target == (if ask.Ask? && ask.target.Some? then Some(ladder[ask.target.value]) else None)
            && (ask.Ask? ==> x.recommendation == Some(ladder[ask.want]))
  {
    hide ConfirmationsFor;
  }

  /** The confirmations a plan records: none unless it argues downward for another rung, and then, where they are
      counted at all, how many of the latest turns in a row asked for that rung, this one among them. */
  lemma {:induction false} ConfirmationsByReadings(cfg: Cfg, ladder: seq<Effort>, c: Effort, base: Option<Effort>,
                                                   floor: Option<Effort>, ev: Evidence, recs: seq<Option<Effort>>,
                                                   pressure: real, protected: bool)
    requires c in ladder
    ensures var x := Plan(cfg, ladder, Some(c), base, floor, ev, recs, pressure, protected);
            var n := x.confirmations;
            && (n > 0 <==> x.direction.Down?)
            && (n > 0 && !cfg.hysteresis ==> n == 1)
            && (n > 0 && cfg.hysteresis ==>
                  && AskedLately(recs + [x.recommendation], x.recommendation, n)
                  && !AskedLately(recs + [x.recommendation], x.recommendation, n + 1))
  {
    hide Target, WantsMore, WantsLess, Clamp, ConfirmationsFor, AskedLately;
    var x := Plan(cfg, ladder, Some(c), base, floor, ev, recs, pressure, protected);
    var all := recs + [x.recommendation];
    ConfirmationsAfter(recs, x.recommendation, x.recommendation);
    AskedLatelyIff(all, x.recommendation, x.confirmations);
    AskedLatelyIff(all, x.recommendation, x.confirmations + 1);
  }

  lemma RankOfRung(ladder: seq<Effort>, i: nat)
    requires Distinct(ladder) && i < |ladder|
    ensures Rank(ladder, ladder[i]) == i
  {
    IndexOfDistinct(ladder, i);
  }
}
