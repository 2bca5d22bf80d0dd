/** Whole runs of the effort policy: each turn's plan feeds the next turn. */
module EffortReplay {
  import opened Prelude
  import opened EffortPolicy
  import opened PolicyOrder

  // --- sessions and arms ---------------------------------------------------

  datatype Turn = Turn(evidence: Evidence, pressure: real, wants: Effort)

  datatype Session = Session(ladder: seq<Effort>, base: Effort, floor: Option<Effort>, turns: seq<Turn>)
  {
    /** What `validate` and the configured ladder promise of a session. */
    predicate Valid() { Distinct(ladder) && "" !in ladder && base in ladder }

    function Bottom(): nat { EffortPolicy.Bottom(ladder, floor) }
  }

  datatype Arm = FixedLow | FixedMedium | FixedHigh | SimpleRule | Policy(cfg: Cfg)

  const SHIPPED: Cfg := Cfg(2, true, Jump, Step, Thresholds(1.8, 0.6, 0.4, 0.6, 0.8, 0.2, 0.6),
                            Targets([("medium", 1.8), ("high", 2.6)], 0.6, "top", "top"))

  const JEV_HYSTERESIS: Cfg := SHIPPED
  const JEV_NO_HYSTERESIS: Cfg := SHIPPED.(hysteresis := false)
  const JEV_UPWARD_STEP: Cfg := SHIPPED.(upward := Step)

  // --- one run -------------------------------------------------------------

  datatype State = State(current: Effort, recs: seq<Option<Effort>>)

  function PlanIn(cfg: Cfg, s: Session, st: State, t: Turn): PlanFields {
    Plan(cfg, s.ladder, Some(st.current), Some(s.base), s.floor, t.evidence, st.recs, t.pressure, false)
  }

  function Advance(st: State, p: PlanFields): State {
    State(if p.toEffort.Some? && p.toEffort.value != "" then p.toEffort.value else st.current,
          st.recs + [p.recommendation])
  }

  /** Where a policy arm stands after its first `n` turns. */
  function After(cfg: Cfg, s: Session, n: nat): State
    requires n <= |s.turns|
  {
    if n == 0 then State(s.base, [])
    else
      var st := After(cfg, s, n - 1);
      Advance(st, PlanIn(cfg, s, st, s.turns[n - 1]))
  }

  function PlanAt(cfg: Cfg, s: Session, i: nat): PlanFields
    requires i < |s.turns|
  {
    PlanIn(cfg, s, After(cfg, s, i), s.turns[i])
  }

  function Simple(t: Turn, ladder: seq<Effort>, floor: Option<Effort>): Effort
    requires ladder != []
  {
    var bottom := Bottom(ladder, floor);
    if t.evidence.difficulty.None? then ladder[bottom]
    else if t.evidence.difficulty.value >= 1.8 then ladder[Max(bottom, |ladder| - 1)]
    else if t.evidence.difficulty.value >= 0.8 then ladder[Max(bottom, Min(1, |ladder| - 1))]
    else ladder[bottom]
  }

  datatype Row = Row(wants: Effort, sent: Effort, changed: bool, adequate: bool, exact: bool, over: int)

  function Scored(ladder: seq<Effort>, wants: Effort, sent: Effort, changed: bool): Row {
    Row(wants, sent, changed, Rank(ladder, sent) >= Rank(ladder, wants), sent == wants,
        Rank(ladder, sent) - Rank(ladder, wants))
  }

  function Sent(arm: Arm, s: Session, i: nat): Effort
    requires i < |s.turns| && s.ladder != []
  {
    match arm
    case FixedLow => s.ladder[s.Bottom()]
    case FixedHigh => s.ladder[|s.ladder| - 1]
    case FixedMedium => s.ladder[Max(s.Bottom(), Min(1, |s.ladder| - 1))]
    case SimpleRule => Simple(s.turns[i], s.ladder, s.floor)
    case Policy(cfg) => After(cfg, s, i + 1).current
  }

  function RowAt(arm: Arm, s: Session, i: nat): Row
    requires i < |s.turns| && s.ladder != []
  {
    var changed :=
      match arm
      case SimpleRule => Sent(arm, s, i) != (if i == 0 then s.base else Sent(arm, s, i - 1))
      case Policy(cfg) => PlanAt(cfg, s, i).action.Change?
      case _ => false;
    Scored(s.ladder, s.turns[i].wants, Sent(arm, s, i), changed)
  }

  function Rows(arm: Arm, s: Session): seq<Row>
    requires s.ladder != []
  {
    seq(|s.turns|, i requires 0 <= i < |s.turns| => RowAt(arm, s, i))
  }

  method PolicyTurn(cfg: Cfg, s: Session, st: State, t: Turn) returns (next: State, changed: bool)
    ensures next == Advance(st, PlanIn(cfg, s, st, t))
    ensures changed == PlanIn(cfg, s, st, t).action.Change?
  {
    var plan := PlanTurn(cfg, s.ladder, Some(st.current), Some(s.base), s.floor, t.evidence, st.recs, t.pressure,
                         false);
    ghost var p := plan.Fields();
    var current := st.current;
    if plan.toEffort.Some? && plan.toEffort.value != "" {
      current := plan.toEffort.value;
    }
    next, changed := State(current, st.recs + [plan.recommendation]), plan.action == Change;
  }

  method RunArm(arm: Arm, s: Session) returns (rows: seq<Row>)
    requires s.ladder != []
    ensures rows == Rows(arm, s)
  {
    hide Plan, Simple, Scored, EffortPolicy.Bottom, Advance;
    rows := [];
    var ladder, bottom := s.ladder, s.Bottom();
    var current := s.base;
    var recommendations: seq<Option<Effort>> := [];
    for i := 0 to |s.turns|
      invariant |rows| == i && forall j | 0 <= j < i :: rows[j] == RowAt(arm, s, j)
      invariant arm.Policy? ==> State(current, recommendations) == After(arm.cfg, s, i)
      invariant arm.SimpleRule? ==> current == if i == 0 then s.base else Sent(arm, s, i - 1)
    {
      var turn := s.turns[i];
      var changed, sent := false, current;
      match arm {
        case FixedLow => sent := ladder[bottom];
        case FixedHigh => sent := ladder[|ladder| - 1];
        case FixedMedium => sent := ladder[Max(bottom, Min(1, |ladder| - 1))];
        case SimpleRule =>
          sent := Simple(turn, ladder, s.floor);
          changed := sent != current;
          current := sent;
        case Policy(cfg) =>
          var next;
          next, changed := PolicyTurn(cfg, s, State(current, recommendations), turn);
          current, recommendations := next.current, next.recs;
          sent := current;
      }
      assert sent == Sent(arm, s, i);
      rows := rows + [Scored(ladder, turn.wants, sent, changed)];
    }
  }

  // --- scoring -------------------------------------------------------------

  function Adequate(rows: seq<Row>): nat {
    if rows == [] then 0 else Adequate(rows[..|rows| - 1]) + (if rows[|rows| - 1].adequate then 1 else 0)
  }

  function OverRungs(rows: seq<Row>): nat {
    if rows == [] then 0 else OverRungs(rows[..|rows| - 1]) + Max(0, rows[|rows| - 1].over)
  }

  /** Rows score one by one: a turn counts as adequate when its row is, and overshoot adds up over the rows that have
      any, one that falls short taking nothing back. */
  lemma ScoresAddUp(rows: seq<Row>, row: Row)
    ensures Adequate(rows + [row]) == Adequate(rows) + (if row.adequate then 1 else 0)
    ensures OverRungs(rows + [row]) == OverRungs(rows) + (if row.over > 0 then row.over else 0)
    ensures Adequate([]) == OverRungs([]) == 0
  {
    assert (rows + [row])[..|rows|] == rows;
  }

  lemma {:induction false} ScoresFollowRungs(a: seq<Row>, b: seq<Row>)
    requires |a| == |b|
    requires forall i | 0 <= i < |a| :: (a[i].adequate ==> b[i].adequate) && a[i].over <= b[i].over
    ensures Adequate(a) <= Adequate(b) && OverRungs(a) <= OverRungs(b)
  {
    if a != [] {
      ScoresFollowRungs(a[..|a| - 1], b[..|b| - 1]);
    }
  }

  // --- domination ----------------------------------------------------------

  /** Two sessions on one ladder and floor, turn by turn no more demanding and no less scarce. */
  ghost predicate Comparable(a: Session, b: Session) {
    && a.Valid() && b.Valid()
    && a.ladder == b.ladder && a.floor == b.floor && |a.turns| == |b.turns|
    && forall i | 0 <= i < |a.turns| ::
         NoMoreDemanding(a.turns[i].evidence, b.turns[i].evidence) && a.turns[i].pressure >= b.turns[i].pressure
  }

  ghost predicate StandsBelow(s: Session, a: State, b: State) {
    Below(s.ladder, s.Bottom(), a.current, a.recs, b.current, b.recs)
  }

  lemma {:induction false} TurnKeepsBelow(ca: Cfg, cb: Cfg, a: Session, b: Session, x: State, y: State, t: Turn,
                                          u: Turn)
    requires a.Valid() && a.ladder == b.ladder && a.floor == b.floor && StandsBelow(a, x, y)
    requires NoMoreDemanding(t.evidence, u.evidence) && t.pressure >= u.pressure
    requires NoFaster(ca, cb) && ca.downward.Step? && ca.Needed() <= cb.Needed()
    ensures StandsBelow(a, Advance(x, PlanIn(ca, a, x, t)), Advance(y, PlanIn(cb, b, y, u)))
  {
    hide Plan, Below, NoMoreDemanding;
    PlanKeepsBelow(ca, cb, a.ladder, a.floor, Some(a.base), Some(b.base), x.current, x.recs, y.current, y.recs,
                   t.evidence, u.evidence, t.pressure, u.pressure, false, false);
  }

  /** Whole-run domination: the order at the start is the order after every turn. */
  lemma {:induction false} RunsStayBelow(ca: Cfg, cb: Cfg, a: Session, b: Session, n: nat)
    requires Comparable(a, b) && n <= |a.turns|
    requires a.Bottom() <= Rank(a.ladder, a.base) <= Rank(b.ladder, b.base)
    requires NoFaster(ca, cb) && ca.downward.Step? && ca.Needed() <= cb.Needed()
    ensures StandsBelow(a, After(ca, a, n), After(cb, b, n))
  {
    hide Plan, NoMoreDemanding;
    if n > 0 {
      RunsStayBelow(ca, cb, a, b, n - 1);
      TurnKeepsBelow(ca, cb, a, b, After(ca, a, n - 1), After(cb, b, n - 1), a.turns[n - 1], b.turns[n - 1]);
    }
  }

  /** The same, read off the rows two arms produce. */
  lemma {:induction false} Domination(ca: Cfg, cb: Cfg, a: Session, b: Session)
    requires Comparable(a, b)
    requires a.Bottom() <= Rank(a.ladder, a.base) <= Rank(b.ladder, b.base)
    requires NoFaster(ca, cb) && ca.downward.Step? && ca.Needed() <= cb.Needed()
    ensures forall i | 0 <= i < |a.turns| ::
              Rank(a.ladder, Rows(Policy(ca), a)[i].sent) <= Rank(b.ladder, Rows(Policy(cb), b)[i].sent)
  {
    hide Plan, NoMoreDemanding, After, PlanAt;
    forall i | 0 <= i < |a.turns|
      ensures Rank(a.ladder, Rows(Policy(ca), a)[i].sent) <= Rank(b.ladder, Rows(Policy(cb), b)[i].sent)
    {
      RunsStayBelow(ca, cb, a, b, i + 1);
    }
  }

  // --- the shipped arms against each other ---------------------------------

  /** Until something asks for more, two arms that differ only in `upward` are the same run. */
  ghost predicate Twins(s: Session, a: State, b: State) {
    a == b && 0 <= Rank(s.ladder, a.current) < s.Bottom()
  }

  lemma {:induction false} TwinsStep(ca: Cfg, cb: Cfg, s: Session, st: State, t: Turn)
    requires s.Valid() && Twins(s, st, st)
    requires NoFaster(ca, cb) && cb == ca.(upward := cb.upward)
    ensures var x, y := Advance(st, PlanIn(ca, s, st, t)), Advance(st, PlanIn(cb, s, st, t));
            Twins(s, x, y) || StandsBelow(s, x, y)
  {
    hide Plan, ConfirmationsFor;
    var at := Rank(s.ladder, st.current);
    var da, wa, ia := PlanByPosition(ca, s.ladder, st.current, Some(s.base), s.floor, t.evidence, st.recs,
                                     t.pressure, false);
    var db, wb, ib := PlanByPosition(cb, s.ladder, st.current, Some(s.base), s.floor, t.evidence, st.recs,
                                     t.pressure, false);
    if t.evidence.Answered() && WantsMore(t.evidence, ca.thresholds) {
      TargetMonotone(ca, cb, s.ladder, at, at, t.evidence, t.evidence, false, false);
      if wa == wb > s.Bottom() {
        ConfirmationsAfter(st.recs, Some(s.ladder[wb]), Some(s.ladder[wb - 1]));
      }
    } else {
      assert da == db;
      assert ia == ib && (ia == at || ia == s.Bottom());
    }
  }

  lemma {:induction false} StepArmStaysBelow(ca: Cfg, cb: Cfg, s: Session, n: nat)
    requires s.Valid() && n <= |s.turns|
    requires NoFaster(ca, cb) && ca.downward.Step? && cb == ca.(upward := cb.upward)
    ensures var x, y := After(ca, s, n), After(cb, s, n); Twins(s, x, y) || StandsBelow(s, x, y)
  {
    hide Plan;
    if n > 0 {
      StepArmStaysBelow(ca, cb, s, n - 1);
      var x, y, t := After(ca, s, n - 1), After(cb, s, n - 1), s.turns[n - 1];
      if Twins(s, x, y) {
        TwinsStep(ca, cb, s, x, t);
      } else {
        TurnKeepsBelow(ca, cb, s, s, x, y, t, t);
      }
    }
  }

  /** Climbing by steps never serves more turns adequately than jumping, and never overshoots
      more, wherever the session starts. */
  lemma {:induction false} StepArmNeverMoreAdequate(s: Session)
    requires s.Valid()
    ensures Adequate(Rows(Policy(JEV_UPWARD_STEP), s)) <= Adequate(Rows(Policy(JEV_HYSTERESIS), s))
    ensures OverRungs(Rows(Policy(JEV_UPWARD_STEP), s)) <= OverRungs(Rows(Policy(JEV_HYSTERESIS), s))
  {
    hide Plan, After, PlanAt;
    forall i: nat | i < |s.turns|
      ensures Rank(s.ladder, Sent(Policy(JEV_UPWARD_STEP), s, i)) <= Rank(s.ladder, Sent(Policy(JEV_HYSTERESIS), s, i))
    {
      StepArmStaysBelow(JEV_UPWARD_STEP, JEV_HYSTERESIS, s, i + 1);
    }
    ScoresFollowRungs(Rows(Policy(JEV_UPWARD_STEP), s), Rows(Policy(JEV_HYSTERESIS), s));
  }

  ghost predicate NoHysteresisNeverBetter(ladder: seq<Effort>, base: Effort, floor: Option<Effort>)
    requires ladder != []
  {
    forall turns: seq<Turn> ::
      var s := Session(ladder, base, floor, turns);
      Adequate(Rows(Policy(JEV_NO_HYSTERESIS), s)) <= Adequate(Rows(Policy(JEV_HYSTERESIS), s))
  }

  /** Turning the confirmations off never serves more turns adequately, for any turns, exactly
      when the session starts at or above its floor. */
  lemma NoHysteresisNeverBetterIff(ladder: seq<Effort>, base: Effort, floor: Option<Effort>)
    requires Session(ladder, base, floor, []).Valid()
    ensures NoHysteresisNeverBetter(ladder, base, floor) <==> Bottom(ladder, floor) <= Rank(ladder, base)
  {
    if Bottom(ladder, floor) <= Rank(ladder, base) {
      forall turns: seq<Turn>
        ensures var s := Session(ladder, base, floor, turns);
                Adequate(Rows(Policy(JEV_NO_HYSTERESIS), s)) <= Adequate(Rows(Policy(JEV_HYSTERESIS), s))
      {
        var s := Session(ladder, base, floor, turns);
        Domination(JEV_NO_HYSTERESIS, JEV_HYSTERESIS, s, s);
        ScoresFollowRungs(Rows(Policy(JEV_NO_HYSTERESIS), s), Rows(Policy(JEV_HYSTERESIS), s));
      }
    } else {
      BelowFloorNoHysteresisWins(ladder, base, floor);
    }
  }

  /** One turn that asks for little. */
  function EasyTurn(wants: Effort): Turn {
    Turn(Evidence(Some(0.0), None, Some(0.0), None, None, false, ""), 0.0, wants)
  }

  /** From below the floor it lifts the session to the floor without confirmations, and not with them. */
  lemma EasyTurnLifts(cfg: Cfg, ladder: seq<Effort>, base: Effort, floor: Option<Effort>)
    requires Session(ladder, base, floor, []).Valid() && Rank(ladder, base) < Bottom(ladder, floor)
    requires cfg == JEV_NO_HYSTERESIS || cfg == JEV_HYSTERESIS
    ensures var bottom := Bottom(ladder, floor);
            var s := Session(ladder, base, floor, [EasyTurn(ladder[bottom])]);
            Adequate(Rows(Policy(cfg), s)) == if cfg.hysteresis then 0 else 1
  {
    var bottom := Bottom(ladder, floor);
    var s := Session(ladder, base, floor, [EasyTurn(ladder[bottom])]);
    EasyLanding(cfg, ladder, base, floor);
    IndexOfDistinct(ladder, bottom);
    hide Plan, Bottom;
    assert After(cfg, s, 0) == State(base, []);
    var rows := Rows(Policy(cfg), s);
    assert rows[..0] == [];
    assert After(cfg, s, 1) == Advance(State(base, []), PlanIn(cfg, s, State(base, []), s.turns[0]));
  }

  lemma EasyLanding(cfg: Cfg, ladder: seq<Effort>, base: Effort, floor: Option<Effort>)
    requires Session(ladder, base, floor, []).Valid() && Rank(ladder, base) < Bottom(ladder, floor)
    requires cfg == JEV_NO_HYSTERESIS || cfg == JEV_HYSTERESIS
    ensures var bottom, easy := Bottom(ladder, floor), EasyTurn(ladder[Bottom(ladder, floor)]);
            var p := PlanIn(cfg, Session(ladder, base, floor, [easy]), State(base, []), easy);
            p.toEffort == Some(if cfg.hysteresis then base else ladder[bottom]) && base != "" && ladder[bottom] != ""
  {
    hide Plan;
    var ev := EasyTurn(ladder[Bottom(ladder, floor)]).evidence;
    var ask, w, to := PlanByPosition(cfg, ladder, base, Some(base), floor, ev, [], 0.0, false);
  }

  lemma BelowFloorNoHysteresisWins(ladder: seq<Effort>, base: Effort, floor: Option<Effort>)
    requires Session(ladder, base, floor, []).Valid() && Rank(ladder, base) < Bottom(ladder, floor)
    ensures !NoHysteresisNeverBetter(ladder, base, floor)
  {
    hide Adequate, Rows, Rank, Bottom;
    EasyTurnLifts(JEV_NO_HYSTERESIS, ladder, base, floor);
    EasyTurnLifts(JEV_HYSTERESIS, ladder, base, floor);
    var turns := [EasyTurn(ladder[Bottom(ladder, floor)])];
    var s := Session(ladder, base, floor, turns);
    assert s.Valid();
  }

  // --- floors and the price of a downgrade ---------------------------------

  /** A run never sinks below the floor, nor below where it started if that was lower. */
  lemma {:induction false} FloorKept(cfg: Cfg, s: Session, n: nat)
    requires s.Valid() && n <= |s.turns|
    ensures Min(Rank(s.ladder, s.base), s.Bottom()) <= Rank(s.ladder, After(cfg, s, n).current)
  {
    if n > 0 {
      FloorKept(cfg, s, n - 1);
      if |s.ladder| >= 2 {
        var st, t := After(cfg, s, n - 1), s.turns[n - 1];
        var ask, w, to := PlanByPosition(cfg, s.ladder, st.current, Some(s.base), s.floor, t.evidence, st.recs,
                                         t.pressure, false);
      }
    }
  }

  function Downs(cfg: Cfg, s: Session, n: nat): nat
    requires n <= |s.turns|
  {
    if n == 0 then 0
    else
      var p := PlanAt(cfg, s, n - 1);
      Downs(cfg, s, n - 1) + (if p.action.Change? && p.direction.Down? then 1 else 0)
  }

  /** What the count below needs of one plan: a change goes where it recommends, a downward
      one has been asked for often enough, and anything else stays. */
  lemma PlanShape(cfg: Cfg, s: Session, st: State, t: Turn)
    ensures var p := PlanIn(cfg, s, st, t);
            && (p.action.Change? ==>
                  && p.toEffort == p.recommendation != Some(st.current)
                  && p.toEffort.Some? && p.toEffort.value in s.ladder)
            && (!p.action.Change? ==> p.toEffort == Some(st.current))
            && (p.action.Change? && p.direction.Down? ==>
                cfg.Needed() <= ConfirmationsFor(st.recs + [p.recommendation], p.recommendation))
  {
    if |s.ladder| >= 2 && st.current in s.ladder {
      var ask := Decide(cfg, s.ladder, IndexOf(s.ladder, st.current).value, s.Bottom(), t.evidence,
                        Clamp(t.pressure), false);
      hide Decide;
      ConfirmationsAfter(st.recs, PlanIn(cfg, s, st, t).recommendation, PlanIn(cfg, s, st, t).recommendation);
    }
  }

  /** The turns the downward changes so far have used up. */
  function Spent(cfg: Cfg, s: Session, n: nat): nat
    requires n <= |s.turns|
  {
    if n == 0 then 0
    else
      var p := PlanAt(cfg, s, n - 1);
      Spent(cfg, s, n - 1) + (if p.action.Change? && p.direction.Down? then cfg.Needed() else 0)
  }

  lemma {:induction false} SpentIsProduct(cfg: Cfg, s: Session, n: nat)
    requires n <= |s.turns|
    ensures Spent(cfg, s, n) == Downs(cfg, s, n) * cfg.Needed()
  {
    hide PlanAt, Cfg.Needed;
    if n > 0 {
      SpentIsProduct(cfg, s, n - 1);
    }
  }

  /** Every downward change has spent `Needed()` turns of its own: the turns that asked for it
      are shared with no other, and the turns now asking for any other rung are still unspent. */
  lemma {:induction false} DowngradeBudget(cfg: Cfg, s: Session, n: nat, rec: Option<Effort>)
    requires "" !in s.ladder && n <= |s.turns|
    requires rec != Some(After(cfg, s, n).current)
    ensures Spent(cfg, s, n) + ConfirmationsFor(After(cfg, s, n).recs, rec) <= n
  {
    hide Plan, Cfg.Needed;
    if n > 0 {
      var st, p := After(cfg, s, n - 1), PlanAt(cfg, s, n - 1);
      PlanShape(cfg, s, st, s.turns[n - 1]);
      ConfirmationsAfter(st.recs, p.recommendation, rec);
      ConfirmationsAfter(st.recs, p.recommendation, p.recommendation);
      DowngradeBudget(cfg, s, n - 1, if p.recommendation == Some(st.current) then None else p.recommendation);
    }
  }

  /** Downward changes times confirmations never exceed the turns taken. */
  lemma DowngradesArePaidFor(cfg: Cfg, s: Session, n: nat)
    requires "" !in s.ladder && n <= |s.turns|
    ensures Downs(cfg, s, n) * cfg.Needed() <= n
  {
    SpentIsProduct(cfg, s, n);
    DowngradeBudget(cfg, s, n, None);
  }
}
