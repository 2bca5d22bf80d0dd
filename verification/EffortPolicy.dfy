/** The between-turn effort policy: which rung of a ladder one turn asks for. */
module EffortPolicy {
  import opened Prelude

  type Effort = string

  // --- the inputs ----------------------------------------------------------

  datatype Move = Step | Jump

  datatype Action = Keep | Change | Blocked

  datatype Direction = Up | Down | Hold

  /** What one turn is known to be. Every answer can be missing. */
  datatype Evidence = Evidence(
    difficulty: Option<real>,
    pHard: Option<real>,
    harm: Option<real>,
    corrective: Option<real>,
    failureMode: Option<string>,
    shortContinuation: bool,
    error: string)
  {
    predicate Missing() { difficulty.None? || harm.None? }

    predicate Answered() { error == "" && !Missing() }
  }

  datatype Thresholds = Thresholds(
    upgradeDifficulty: real,
    upgradeHarm: real,
    upgradePHard: real,
    correctiveFollowup: real,
    downgradeDifficulty: real,
    downgradeHarm: real,
    quotaPressureAt: real)

  datatype Targets = Targets(
    difficulty: seq<(Effort, real)>,
    pHardTop: real,
    correctiveRung: string,
    protectedRung: string)

  datatype Cfg = Cfg(
    confirmations: nat,
    hysteresis: bool,
    upward: Move,
    downward: Move,
    thresholds: Thresholds,
    targets: Targets)
  {
    /** How many consecutive recommendations a downgrade needs under this config. */
    function Needed(): nat { if hysteresis then confirmations else 1 }
  }

  /** The fields of one recorded plan; reasons and copies of the inputs are text. */
  datatype PlanFields = PlanFields(
    action: Action,
    fromEffort: Option<Effort>,
    toEffort: Option<Effort>,
    baseEffort: Option<Effort>,
    recommendation: Option<Effort>,
    direction: Direction,
    target: Option<Effort>,
    confirmations: nat,
    needed: nat,
    floor: Option<Effort>,
    ladder: seq<Effort>,
    pressure: real)

  // --- reading the evidence ------------------------------------------------

  predicate AtLeast(answer: Option<real>, bar: real) { answer.Some? && answer.value >= bar }

  const NOT_A_REASONING_PROBLEM: seq<string> := ["environment_problem", "missing_information"]

  predicate Unreasonable(mode: Option<string>) {
    mode.Some? && mode.value in NOT_A_REASONING_PROBLEM
  }

  predicate Corrective(ev: Evidence, t: Thresholds) {
    AtLeast(ev.corrective, t.correctiveFollowup) && !Unreasonable(ev.failureMode)
  }

  predicate WantsMore(ev: Evidence, t: Thresholds) {
    || AtLeast(ev.difficulty, t.upgradeDifficulty)
    || AtLeast(ev.pHard, t.upgradePHard)
    || AtLeast(ev.harm, t.upgradeHarm)
    || Corrective(ev, t)
  }

  predicate WantsLess(ev: Evidence, t: Thresholds) {
    && !ev.shortContinuation
    && ev.difficulty.Some? && ev.difficulty.value <= t.downgradeDifficulty
    && ev.harm.Some? && ev.harm.value <= t.downgradeHarm
    && !AtLeast(ev.corrective, t.correctiveFollowup)
  }

  // --- how far up ----------------------------------------------------------

  function NamedRung(rungs: seq<Effort>, name: string): (r: Option<nat>)
    requires rungs != []
    ensures r.Some? ==> r.value < |rungs|
    ensures r.None? <==> name != "top" && name !in rungs
    ensures r.Some? && name != "top" ==> rungs[r.value] == name
    ensures name == "top" ==> r == Some(|rungs| - 1)
  {
    if name == "top" then Some(|rungs| - 1) else IndexOf(rungs, name)
  }

  /** A follow-up names a defect that more reasoning may mend. */
  ghost predicate NamesDefect(ev: Evidence, bar: real) {
    && ev.corrective.Some? && bar <= ev.corrective.value
    && ev.failureMode != Some("environment_problem") && ev.failureMode != Some("missing_information")
  }

  /** The rungs this turn's evidence names, whatever the session runs at now. */
  ghost predicate Names(cfg: Cfg, rungs: seq<Effort>, ev: Evidence, protected: bool, i: nat)
    requires rungs != []
  {
    || (exists k :: 0 <= k < |cfg.targets.difficulty|
          && ev.difficulty.Some? && cfg.targets.difficulty[k].1 <= ev.difficulty.value
          && IndexOf(rungs, cfg.targets.difficulty[k].0) == Some(i))
    || (ev.pHard.Some? && cfg.targets.pHardTop <= ev.pHard.value && i == |rungs| - 1)
    || (NamesDefect(ev, cfg.thresholds.correctiveFollowup) &&
        NamedRung(rungs, cfg.targets.correctiveRung) == Some(i))
    || (protected && NamedRung(rungs, cfg.targets.protectedRung) == Some(i))
  }

  function Reach(want: nat, index: Option<nat>): nat {
    if index.Some? && index.value > want then index.value else want
  }

  /** `want` after the first `k` difficulty entries have spoken. */
  function DifficultyReach(ev: Evidence, entries: seq<(Effort, real)>, rungs: seq<Effort>, want: nat, k: nat): nat
    requires k <= |entries|
  {
    if k == 0 then want
    else
      var before := DifficultyReach(ev, entries, rungs, want, k - 1);
      if AtLeast(ev.difficulty, entries[k - 1].1)
      then Reach(before, IndexOf(rungs, entries[k - 1].0))
      else before
  }

  function Target(cfg: Cfg, rungs: seq<Effort>, at: nat, ev: Evidence, protected: bool): nat
    requires rungs != []
  {
    var top := |rungs| - 1;
    var oneMore := Min(at + 1, top);
    if cfg.upward.Step? then oneMore
    else
      var a := DifficultyReach(ev, cfg.targets.difficulty, rungs, oneMore, |cfg.targets.difficulty|);
      var b := if AtLeast(ev.pHard, cfg.targets.pHardTop) then Reach(a, Some(top)) else a;
      var c := if Corrective(ev, cfg.thresholds) then Reach(b, NamedRung(rungs, cfg.targets.correctiveRung)) else b;
      var d := if protected then Reach(c, NamedRung(rungs, cfg.targets.protectedRung)) else c;
      Min(d, top)
  }

  lemma {:induction false} DifficultyReachIsMax(ev: Evidence, entries: seq<(Effort, real)>, rungs: seq<Effort>,
                                                want: nat, k: nat)
    requires k <= |entries|
    ensures var r := DifficultyReach(ev, entries, rungs, want, k);
            && want <= r
            && (r == want ||
                exists j :: 0 <= j < k && AtLeast(ev.difficulty, entries[j].1) &&
                            IndexOf(rungs, entries[j].0) == Some(r))
            && forall j, i | 0 <= j < k && AtLeast(ev.difficulty, entries[j].1) &&
                             IndexOf(rungs, entries[j].0) == Some(i) ::
                 i <= r
  {
    if k > 0 {
      DifficultyReachIsMax(ev, entries, rungs, want, k - 1);
    }
  }

  /** The upward target is the strongest of one more rung and every rung the evidence
      names; under `upward: step` it is one more rung whatever the evidence names. */
  lemma TargetIsStrongestReading(cfg: Cfg, rungs: seq<Effort>, at: nat, ev: Evidence, protected: bool)
    requires at < |rungs|
    ensures var r := Target(cfg, rungs, at, ev, protected);
            var oneMore := Min(at + 1, |rungs| - 1);
            && oneMore <= r < |rungs|
            && (cfg.upward.Step? ==> r == oneMore)
            && (cfg.upward.Jump? ==>
                  && (r == oneMore || Names(cfg, rungs, ev, protected, r))
                  && forall i: nat | Names(cfg, rungs, ev, protected, i) :: i <= r)
  {
    DifficultyReachIsMax(ev, cfg.targets.difficulty, rungs, Min(at + 1, |rungs| - 1), |cfg.targets.difficulty|);
  }

  method TargetIndex(cfg: Cfg, rungs: seq<Effort>, at: nat, ev: Evidence, protected: bool) returns (r: nat)
    requires at < |rungs|
    ensures r == Target(cfg, rungs, at, ev, protected)
  {
    var top := |rungs| - 1;
    var want := Min(at + 1, top);
    if cfg.upward == Step {
      return want;
    }
    ghost var oneMore := want;
    for k := 0 to |cfg.targets.difficulty|
      invariant want == DifficultyReach(ev, cfg.targets.difficulty, rungs, oneMore, k)
    {
      var (rung, entry) := cfg.targets.difficulty[k];
      if AtLeast(ev.difficulty, entry) {
        want := Reach(want, IndexOf(rungs, rung));
      }
    }
    if AtLeast(ev.pHard, cfg.targets.pHardTop) {
      want := Reach(want, Some(top));
    }
    if Corrective(ev, cfg.thresholds) {
      want := Reach(want, NamedRung(rungs, cfg.targets.correctiveRung));
    }
    if protected {
      want := Reach(want, NamedRung(rungs, cfg.targets.protectedRung));
    }
    return Min(want, top);
  }

  // --- confirmations -------------------------------------------------------

  /** How many of the latest turns in a row asked for `effort`. */
  function ConfirmationsFor(recs: seq<Option<Effort>>, effort: Option<Effort>): nat {
    if recs == [] || recs[|recs| - 1] != effort then 0
    else 1 + ConfirmationsFor(recs[..|recs| - 1], effort)
  }

  /** It is the length of the longest suffix that asks for nothing else. */
  lemma {:induction false} ConfirmationsAreLongestSuffix(recs: seq<Option<Effort>>, effort: Option<Effort>)
    ensures var n := ConfirmationsFor(recs, effort);
            && n <= |recs|
            && (forall i | |recs| - n <= i < |recs| :: recs[i] == effort)
            && (n < |recs| ==> recs[|recs| - n - 1] != effort)
  {
    if recs != [] && recs[|recs| - 1] == effort {
      ConfirmationsAreLongestSuffix(recs[..|recs| - 1], effort);
    }
  }

  method CountConfirmations(recs: seq<Option<Effort>>, effort: Option<Effort>) returns (count: nat)
    ensures count == ConfirmationsFor(recs, effort)
  {
    count := 0;
    var i := |recs|;
    assert recs[..i] == recs;
    while i > 0
      invariant 0 <= i <= |recs|
      invariant ConfirmationsFor(recs, effort) == count + ConfirmationsFor(recs[..i], effort)
    {
      assert recs[..i][..i - 1] == recs[..i - 1];
      if recs[i - 1] != effort {
        break;
      }
      count, i := count + 1, i - 1;
    }
  }

  // --- one turn ------------------------------------------------------------

  /** The lowest rung a recommendation may name. A floor off the ladder is no floor. */
  function Bottom(rungs: seq<Effort>, floor: Option<Effort>): (b: nat)
    ensures rungs != [] ==> b < |rungs|
    ensures floor.Some? && floor.value in rungs ==> rungs[b] == floor.value
    ensures floor.None? || floor.value !in rungs ==> b == 0
  {
    if floor.Some? && floor.value in rungs then IndexOf(rungs, floor.value).value else 0
  }

  /** What the evidence asks for, before confirmations are counted. */
  datatype Ask = NoChange | Ask(direction: Direction, want: nat, target: Option<nat>)

  function Decide(cfg: Cfg, rungs: seq<Effort>, at: nat, bottom: nat, ev: Evidence, pressure: real,
                  protected: bool): (a: Ask)
    requires at < |rungs| && bottom < |rungs|
    ensures a.Ask? ==> bottom <= a.want < |rungs| && !a.direction.Hold?
    ensures a.Ask? && a.target.Some? ==> a.target.value < |rungs|
  {
    TargetIsStrongestReading(cfg, rungs, at, ev, protected);
    if !ev.Answered() then NoChange
    else if WantsMore(ev, cfg.thresholds) then
      var want := Target(cfg, rungs, at, ev, protected);
      Ask(Up, Max(want, bottom), Some(want))
    else if WantsLess(ev, cfg.thresholds) then
      var want := Max(if cfg.downward.Step? then at - 1 else bottom, bottom);
      Ask(Down, want, Some(want))
    else if pressure >= cfg.thresholds.quotaPressureAt then
      Ask(Down, Max(at - 1, bottom), None)
    else NoChange
  }

  /** What an ask answers to: upward exactly when the evidence argues upward, and then whatever the quota
      pressure is; downward exactly when it argues downward or, arguing neither way, meets the pressure; and
      never past the floor. */
  lemma AskAnswersTo(cfg: Cfg, rungs: seq<Effort>, at: nat, bottom: nat, ev: Evidence, p: real, q: real,
                     protected: bool)
    requires at < |rungs| && bottom < |rungs|
    ensures var ask := Decide(cfg, rungs, at, bottom, ev, p, protected);
            && (ask.Ask? && ask.direction.Up? <==> ev.Answered() && WantsMore(ev, cfg.thresholds))
            && (ask.Ask? && ask.direction.Down? <==>
                  && ev.Answered() && !WantsMore(ev, cfg.thresholds)
                  && (WantsLess(ev, cfg.thresholds) || p >= cfg.thresholds.quotaPressureAt))
            && (ask.Ask? && ask.direction.Up? ==>
                  && ask == Decide(cfg, rungs, at, bottom, ev, q, protected)
                  && at <= ask.want && (at + 1 < |rungs| ==> at < ask.want))
            && (ask.Ask? && ask.direction.Down? ==> bottom <= ask.want <= Max(at, bottom))
            && (ask.Ask? && ask.direction.Down? && bottom < at ==> ask.want < at)
            && (ask.Ask? && ask.direction.Down? && cfg.downward.Step? && bottom < at ==> ask.want == at - 1)
  {
    TargetIsStrongestReading(cfg, rungs, at, ev, protected);
  }

  function Clamp(pressure: real): real {
    if pressure < 0.0 then 0.0 else if pressure > 1.0 then 1.0 else pressure
  }

  function Blank(cfg: Cfg, ladder: seq<Effort>, current: Option<Effort>, base: Option<Effort>,
                 floor: Option<Effort>, pressure: real): PlanFields
  {
    PlanFields(Keep, current, current, base, current, Hold, None, 0, cfg.Needed(), floor, ladder, Clamp(pressure))
  }

  /** What an ask becomes once the recommendations before it are counted. */
  function Weigh(cfg: Cfg, ladder: seq<Effort>, ask: Ask, recs: seq<Option<Effort>>, blank: PlanFields): PlanFields
    requires ask.Ask? ==> ask.want < |ladder| && (ask.target.Some? ==> ask.target.value < |ladder|)
  {
    if ask.NoChange? then blank
    else
      var rec := Some(ladder[ask.want]);
      var asked := blank.(recommendation := rec,
                          target := if ask.target.Some? then Some(ladder[ask.target.value]) else None);
      if rec == blank.fromEffort then asked
      else
        var count := if ask.direction.Up? then 0
                     else if cfg.hysteresis then ConfirmationsFor(recs + [rec], rec)
                     else 1;
        var counted := asked.(direction := ask.direction, confirmations := count);
        if ask.direction.Down? && count < cfg.Needed() then counted
        else counted.(action := Change, toEffort := rec)
  }

  /** One turn's plan: what `PlanTurn` writes down. */
  function Plan(cfg: Cfg, ladder: seq<Effort>, current: Option<Effort>, base: Option<Effort>, floor: Option<Effort>,
                ev: Evidence, recs: seq<Option<Effort>>, pressure: real, protected: bool): PlanFields
  {
    var blank := Blank(cfg, ladder, current, base, floor, pressure);
    if |ladder| < 2 || current.None? || current.value !in ladder then blank
    else
      var at := IndexOf(ladder, current.value).value;
      Weigh(cfg, ladder, Decide(cfg, ladder, at, Bottom(ladder, floor), ev, Clamp(pressure), protected), recs, blank)
  }

  /** One turn's effort decision, filled in as it is decided. */
  class TurnPlan {
    var action: Action
    var fromEffort: Option<Effort>
    var toEffort: Option<Effort>
    var baseEffort: Option<Effort>
    var recommendation: Option<Effort>
    var direction: Direction
    var target: Option<Effort>
    var confirmations: nat
    var needed: nat
    var floor: Option<Effort>
    var ladder: seq<Effort>
    var pressure: real

    function Fields(): PlanFields
      reads this
    {
      PlanFields(action, fromEffort, toEffort, baseEffort, recommendation, direction, target,
                 confirmations, needed, floor, ladder, pressure)
    }

    constructor (cfg: Cfg, ladder: seq<Effort>, current: Option<Effort>, base: Option<Effort>,
                 floor: Option<Effort>, pressure: real)
      ensures Fields() == Blank(cfg, ladder, current, base, floor, pressure)
    {
      this.action, this.direction, this.target := Keep, Hold, None;
      this.fromEffort, this.toEffort, this.recommendation := current, current, current;
      this.baseEffort, this.floor, this.ladder := base, floor, ladder;
      this.confirmations, this.needed := 0, cfg.Needed();
      this.pressure := Clamp(pressure);
    }

    /** Write down what was asked for, and change the effort if it was asked for often enough. */
    method Settle(cfg: Cfg, ask: Ask, recs: seq<Option<Effort>>)
      requires ask.Ask? && ask.want < |ladder| && (ask.target.Some? ==> ask.target.value < |ladder|)
      requires confirmations == 0 && !ask.direction.Hold?
      modifies this
      ensures Fields() == Weigh(cfg, old(ladder), ask, recs, old(Fields()))
    {
      var rec := Some(ladder[ask.want]);
      target := if ask.target.Some? then Some(ladder[ask.target.value]) else None;
      recommendation := rec;
      if rec == fromEffort {
        return;
      }
      direction := ask.direction;
      if ask.direction == Down && cfg.hysteresis {
        confirmations := CountConfirmations(recs + [rec], rec);
        if confirmations < cfg.confirmations {
          return;
        }
      } else if ask.direction == Down {
        confirmations := 1;
      }
      action := Change;
      toEffort := rec;
    }

    /** Stop a plan without losing what it was going to say. */
    method Block()
      modifies this
      ensures Fields() == old(Fields()).(action := Blocked, toEffort := old(fromEffort))
    {
      action := Blocked;
      toEffort := fromEffort;
    }

    /** Shadow keeps the recommendation and sends nothing different. */
    method HoldBack()
      modifies this
      ensures Fields() == old(Fields()).(action := Keep, toEffort := old(fromEffort))
    {
      action := Keep;
      toEffort := fromEffort;
    }
  }

  /** Which way this turn argues, and how far, before any of it is written down. */
  method Choose(cfg: Cfg, rungs: seq<Effort>, at: nat, bottom: nat, ev: Evidence, pressure: real, protected: bool)
    returns (ask: Ask)
    requires at < |rungs| && bottom < |rungs|
    ensures ask == Decide(cfg, rungs, at, bottom, ev, pressure, protected)
  {
    if ev.error != "" || ev.Missing() {
      return NoChange;
    }
    if WantsMore(ev, cfg.thresholds) {
      var want := TargetIndex(cfg, rungs, at, ev, protected);
      return Ask(Up, Max(want, bottom), Some(want));
    }
    if WantsLess(ev, cfg.thresholds) {
      // One rung, unless this deployment asked for the whole way down.
      var step := if cfg.downward == Step then at as int - 1 else bottom;
      return Ask(Down, Max(step, bottom), Some(Max(step, bottom)));
    }
    if pressure >= cfg.thresholds.quotaPressureAt {
      // Pressure resolves a hold downward, and never past the floor.
      return Ask(Down, Max(at as int - 1, bottom), None);
    }
    return NoChange;
  }

  method PlanTurn(cfg: Cfg, ladder: seq<Effort>, current: Option<Effort>, base: Option<Effort>, floor: Option<Effort>,
                  ev: Evidence, recs: seq<Option<Effort>>, pressure: real, protected: bool) returns (plan: TurnPlan)
    ensures fresh(plan)
    ensures plan.Fields() == Plan(cfg, ladder, current, base, floor, ev, recs, pressure, protected)
  {
    plan := new TurnPlan(cfg, ladder, current, base, floor, pressure);
    if |ladder| < 2 || current.None? || current.value !in ladder {
      return;
    }
    var at := IndexOf(ladder, current.value).value;
    var ask := Choose(cfg, ladder, at, Bottom(ladder, floor), ev, plan.pressure, protected);
    if ask.NoChange? {
      return;
    }
    plan.Settle(cfg, ask, recs);
  }
}
