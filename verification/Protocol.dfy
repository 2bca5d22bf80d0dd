/** One session's turns, executions and reconciliations, interleaved between awaits. */
module Protocol {
  import opened Prelude
  import opened EffortPolicy
  import opened Ledger
  import opened Sessions

  // --- the state machine ---------------------------------------------------

  /** A claimed execution: what it carries, and the session row it read at the start. */
  datatype Exec = Exec(pending: Option<nat>, maintenance: bool, streaming: bool, seen: Session)

  /** A turn whose classifier call is out. */
  datatype Planner = Planner(turnId: string, seen: Session)

  datatype World = World(db: Db, inflight: nat, execs: map<nat, Exec>, planners: map<nat, Planner>)

  /** Each step is one stretch of code between two awaits. */
  datatype Step =
    | PlanBegins(p: nat, turnId: string)
    | PlanEnds(p: nat, plan: PlanFields, mode: Mode)
    | PlanFails(p: nat)
    | ExecBegins(e: nat, named: Option<nat>, maintenance: bool, booked: bool)
    | SendFails(e: nat, refused: bool)
    | SendAborts(e: nat)
    | Answers(e: nat, ok: bool, anchor: Option<nat>)
    | StreamEnds(e: nat, clean: bool, seen: Observation)
    | Reconciles(i: nat, outcome: Outcome)

  /** What a turn boundary has to find before the classifier is asked. */
  predicate MayPlan(w: World, turnId: string) {
    && !Holds(w.db.plans, turnId)
    && w.inflight == 0
    && !w.db.session.compactionUnknown && !w.db.session.lineageUnknown
    && OpenChange(PlansThisEpoch(w.db.plans, w.db.session.epoch)).None?
  }

  /** The plan an execution carries out, if the one it names is still to be sent. */
  function Carried(db: Db, named: Option<nat>, maintenance: bool): Option<nat> {
    if !maintenance && named.Some? && named.value < |db.plans| && db.plans[named.value].Sendable() then named else None
  }

  function Tell(db: Db, pending: Option<nat>, event: Event, seen: Option<Observation>): Db {
    if pending.Some? && pending.value < |db.plans| then AdvancePlan(db, pending.value, event, seen) else db
  }

  function Activate(db: Db, seen: Session): Db {
    if seen.life.Prepared? && seen.version == db.session.version
    then db.(session := Patched(db.session, NOTHING.(life := Some(Active)))) else db
  }

  function Anchor(db: Db, pending: Option<nat>, anchor: Option<nat>): Db {
    if pending.Some? && pending.value < |db.plans| && anchor.Some?
    then db.(plans := db.plans[pending.value := db.plans[pending.value].(anchor := anchor)]) else db
  }

  /** Bookkeeping when the reply was accepted. */
  function OnAccepted(db: Db, x: Exec, anchor: Option<nat>): Db {
    var told := Anchor(Tell(Activate(db, x.seen), x.pending, WasAccepted, None), x.pending, anchor);
    if x.maintenance then OpenEpoch(told, x.seen.base) else told
  }

  /** Bookkeeping when an accepted reply is over. */
  function OnFinished(db: Db, x: Exec, clean: bool, seen: Observation): Db {
    var settled := seen.Completed() && clean;
    var told := Tell(Observe(db, seen), x.pending, if settled then WasCompleted else WentUnknown, Some(seen));
    if x.maintenance && !settled then MarkUnknown(told) else told
  }

  function Released(inflight: nat): nat { if inflight > 0 then inflight - 1 else 0 }

  /** The execution gives its claim up. */
  function Over(w: World, e: nat, db: Db): World {
    w.(db := db, inflight := Released(w.inflight), execs := w.execs - {e})
  }

  predicate Sending(w: World, e: nat) { e in w.execs && !w.execs[e].streaming }

  predicate Streaming(w: World, e: nat) { e in w.execs && w.execs[e].streaming }

  function Begin(w: World, e: nat, named: Option<nat>, maintenance: bool, cap: nat): World {
    if e in w.execs || w.inflight >= cap then w
    else w.(inflight := w.inflight + 1,
            execs := w.execs[e := Exec(Carried(w.db, named, maintenance), maintenance, false, w.db.session)])
  }

  /** The request ended before it was accepted. */
  function Fail(w: World, e: nat, event: Event): World {
    if !Sending(w, e) then w else Over(w, e, Tell(w.db, w.execs[e].pending, event, None))
  }

  function Accept(w: World, e: nat, anchor: Option<nat>): World {
    if !Sending(w, e) then w
    else w.(db := OnAccepted(w.db, w.execs[e], anchor), execs := w.execs[e := w.execs[e].(streaming := true)])
  }

  function Finish(w: World, e: nat, clean: bool, seen: Observation): World {
    if !Streaming(w, e) then w else Over(w, e, OnFinished(w.db, w.execs[e], clean, seen))
  }

  function BeginPlan(w: World, p: nat, turnId: string): World {
    if p in w.planners || !MayPlan(w, turnId) then w
    else w.(planners := w.planners[p := Planner(turnId, w.db.session)])
  }

  function EndPlan(w: World, p: nat, plan: PlanFields, mode: Mode): World {
    if p !in w.planners then w
    else w.(db := Record(w.db, w.planners[p].seen, w.planners[p].turnId, plan, mode), planners := w.planners - {p})
  }

  function Reconcile(w: World, i: nat, outcome: Outcome): World {
    if i < |w.db.plans| then w.(db := Settle(w.db, i, outcome)) else w
  }

  function Next(w: World, step: Step, cap: nat): World {
    match step
    case PlanBegins(p, turnId) => BeginPlan(w, p, turnId)
    case PlanEnds(p, plan, mode) => EndPlan(w, p, plan, mode)
    case PlanFails(p) => w.(planners := w.planners - {p})
    case ExecBegins(e, named, maintenance, booked) => if booked then Begin(w, e, named, maintenance, cap) else w
    case SendFails(e, refused) => Fail(w, e, if refused then WasRejected else WentUnknown)
    case SendAborts(e) => Fail(w, e, WentUnknown)
    case Answers(e, ok, anchor) => if ok then Accept(w, e, anchor) else Fail(w, e, WasRejected)
    case StreamEnds(e, clean, seen) => Finish(w, e, clean, seen)
    case Reconciles(i, outcome) => Reconcile(w, i, outcome)
  }

  /** A change that is planned, accepted or of unknown outcome stands among the newest 50 plans, in this epoch or
      later. */
  ghost predicate ChangeInSight(plans: seq<PlanRow>, epoch: nat) {
    exists i :: 0 <= i < |plans| && |plans| - 50 <= i && plans[i].epoch >= epoch && plans[i].action.Change?
                && plans[i].status in {Planned, Accepted, OutcomeUnknown}
  }

  lemma ChangeIsFound(plans: seq<PlanRow>, epoch: nat)
    ensures OpenChange(PlansThisEpoch(plans, epoch)).Some? <==> ChangeInSight(plans, epoch)
  {
    var window := Window(plans);
    if ChangeInSight(plans, epoch) {
      var i :| 0 <= i < |plans| && |plans| - 50 <= i && plans[i].epoch >= epoch && plans[i].OpenChange();
      assert plans[i] == window[i - (|plans| - |window|)];
      assert plans[i] in PlansThisEpoch(plans, epoch);
    }
    if row :| row in PlansThisEpoch(plans, epoch) && row.OpenChange() {
      var i :| 0 <= i < |window| && window[i] == row;
      assert plans[|plans| - |window| + i] == row;
    }
  }

  /** When a turn's classification begins: exactly where the turn has no plan yet, nothing is in flight, lineage and
      compaction are known, and no change in sight is unsettled. */
  lemma TurnBeginsIff(w: World, p: nat, turnId: string, cap: nat)
    requires p !in w.planners
    ensures var v, s, plans := Next(w, PlanBegins(p, turnId), cap), w.db.session, w.db.plans;
            && (p in v.planners <==>
                  && (forall i | 0 <= i < |plans| :: plans[i].turnId != turnId)
                  && w.inflight == 0 && !s.compactionUnknown && !s.lineageUnknown
                  && !ChangeInSight(plans, s.epoch))
            && v == (if p in v.planners then w.(planners := w.planners[p := Planner(turnId, s)]) else w)
  {
    hide OpenChange, PlansThisEpoch, ChangeInSight;
    ChangeIsFound(w.db.plans, w.db.session.epoch);
  }

  lemma ToldBooks(db: Db, pending: Option<nat>, event: Event, seen: Option<Observation>)
    ensures var after := Tell(db, pending, event, seen);
            && after.session.life == db.session.life && |after.plans| == |db.plans|
            && forall i | 0 <= i < |db.plans| :: after.plans[i].anchor == db.plans[i].anchor
  {}

  /** The acceptance of a reply activates a session that was still prepared, unless its row moved since the request
      was sent, and writes the anchor down where there is one. */
  lemma AcceptanceBooks(w: World, e: nat, anchor: Option<nat>, cap: nat)
    requires Sending(w, e)
    ensures var v, x := Next(w, Answers(e, true, anchor), cap), w.execs[e];
            && (v.db.session.life.Active? <==>
                  || w.db.session.life.Active?
                  || (x.seen.life.Prepared? && x.seen.version == w.db.session.version))
            && |v.db.plans| == |w.db.plans|
            && forall i | 0 <= i < |w.db.plans| ::
                 v.db.plans[i].anchor ==
                   if x.pending == Some(i) && anchor.Some? then anchor else w.db.plans[i].anchor
  {
    hide Tell;
    ToldBooks(Activate(w.db, w.execs[e].seen), w.execs[e].pending, WasAccepted, None);
  }

  function Run(w: World, steps: seq<Step>, cap: nat): World {
    if steps == [] then w else Next(Run(w, steps[..|steps| - 1], cap), steps[|steps| - 1], cap)
  }

  predicate Initial(w: World) {
    && w.inflight == 0 && w.execs == map[] && w.planners == map[] && w.db.plans == []
    && w.db.session.effective == w.db.session.confirmed == w.db.session.base
  }

  // --- claims --------------------------------------------------------------

  predicate Balanced(w: World, cap: nat) { w.inflight == |w.execs| <= cap }

  lemma OverBalanced(w: World, e: nat, db: Db, cap: nat)
    requires Balanced(w, cap) && e in w.execs
    ensures Balanced(Over(w, e, db), cap) && Over(w, e, db).execs.Keys == w.execs.Keys - {e}
  {
    assert (w.execs - {e}).Keys == w.execs.Keys - {e};
  }

  lemma BeginBalanced(w: World, e: nat, named: Option<nat>, maintenance: bool, cap: nat)
    requires Balanced(w, cap)
    ensures Balanced(Begin(w, e, named, maintenance, cap), cap)
  {
    var x := Exec(Carried(w.db, named, maintenance), maintenance, false, w.db.session);
    assert w.execs[e := x].Keys == w.execs.Keys + {e};
  }

  lemma AcceptBalanced(w: World, e: nat, anchor: Option<nat>, cap: nat)
    requires Balanced(w, cap)
    ensures Balanced(Accept(w, e, anchor), cap)
  {
    if Sending(w, e) {
      assert w.execs[e := w.execs[e].(streaming := true)].Keys == w.execs.Keys;
    }
  }

  lemma FailBalanced(w: World, e: nat, event: Event, cap: nat)
    requires Balanced(w, cap)
    ensures Balanced(Fail(w, e, event), cap)
  {
    hide Tell, Over;
    if Sending(w, e) {
      OverBalanced(w, e, Tell(w.db, w.execs[e].pending, event, None), cap);
    }
  }

  lemma FinishBalanced(w: World, e: nat, clean: bool, seen: Observation, cap: nat)
    requires Balanced(w, cap)
    ensures Balanced(Finish(w, e, clean, seen), cap)
  {
    hide OnFinished, Over;
    if Streaming(w, e) {
      OverBalanced(w, e, OnFinished(w.db, w.execs[e], clean, seen), cap);
    }
  }

  lemma ClaimsStep(w: World, step: Step, cap: nat)
    requires Balanced(w, cap)
    ensures Balanced(Next(w, step, cap), cap)
  {
    hide Begin, Accept, Fail, Finish, Settle, Record, MayPlan;
    match step
    case ExecBegins(e, named, maintenance, _) => BeginBalanced(w, e, named, maintenance, cap);
    case Answers(e, ok, anchor) =>
      AcceptBalanced(w, e, anchor, cap);
      FailBalanced(w, e, WasRejected, cap);
    case SendFails(e, refused) => FailBalanced(w, e, if refused then WasRejected else WentUnknown, cap);
    case SendAborts(e) => FailBalanced(w, e, WentUnknown, cap);
    case StreamEnds(e, clean, seen) => FinishBalanced(w, e, clean, seen, cap);
    case _ =>
  }

  /** Under every interleaving the in-flight count is the number of executions holding a
      claim, and it never passes the bound. */
  lemma {:induction false} ClaimsConserved(w: World, steps: seq<Step>, cap: nat)
    requires Initial(w)
    ensures Balanced(Run(w, steps, cap), cap)
  {
    hide Next;
    if steps != [] {
      ClaimsConserved(w, steps[..|steps| - 1], cap);
      ClaimsStep(Run(w, steps[..|steps| - 1], cap), steps[|steps| - 1], cap);
    }
  }

  // --- the session row refines the ledger's history ------------------------

  /** The row this step confirmed, if it confirmed one. */
  ghost function NewlyConfirmed(before: seq<PlanRow>, after: seq<PlanRow>): Option<PlanRow> {
    if exists i :: 0 <= i < |before| && i < |after| && before[i].status != Confirmed && after[i].status == Confirmed
    then
      var i :| 0 <= i < |before| && i < |after| && before[i].status != Confirmed && after[i].status == Confirmed;
      Some(after[i])
    else None
  }

  /** What one step of the ledger's history does to the effort a reader of it would believe. */
  ghost function Believed(before: Db, after: Db, effort: Effort): Effort {
    if after.session.epoch > before.session.epoch then after.session.base
    else
      var row := NewlyConfirmed(before.plans, after.plans);
      if row.Some? then EffectiveAfter(row.value, effort) else effort
  }

  ghost function History(w: World, steps: seq<Step>, cap: nat): Effort {
    if steps == [] then w.db.session.base
    else
      var earlier := steps[..|steps| - 1];
      Believed(Run(w, earlier, cap).db, Run(w, steps, cap).db, History(w, earlier, cap))
  }

  /** A plan that changes effort names one. */
  predicate Names(p: PlanFields) { p.action.Change? ==> p.toEffort.Some? && p.toEffort.value != "" }

  /** Every plan that changes effort names one. */
  predicate Named(step: Step) { step.PlanEnds? ==> Names(step.plan) }

  predicate AllNamed(steps: seq<Step>) {
    forall i | 0 <= i < |steps| :: Named(steps[i])
  }

  /** Nobody reconciles a plan while an execution carrying it is in flight. */
  predicate Quiet(w: World, step: Step) {
    && Named(step)
    && (step.Reconciles? ==> forall e | e in w.execs :: w.execs[e].pending != Some(step.i))
  }

  predicate AllQuiet(w: World, steps: seq<Step>, cap: nat) {
    steps == [] ||
    (var front, last := steps[..|steps| - 1], steps[|steps| - 1];
     AllQuiet(w, front, cap) && Quiet(Run(w, front, cap), last))
  }

  ghost predicate Refines(db: Db, effort: Effort) { db.session.effective == db.session.confirmed == effort }

  ghost predicate RowsName(plans: seq<PlanRow>) {
    forall i | 0 <= i < |plans| && plans[i].action.Change? :: plans[i].toEffort.Some? && plans[i].toEffort.value != ""
  }

  /** What an execution carries is still unconfirmed. */
  ghost predicate Unsettled(db: Db, pending: Option<nat>) {
    pending.Some? ==> pending.value < |db.plans| && db.plans[pending.value].status != Confirmed
  }

  /** An execution knows the session's base, and its plan can be sent until it is accepted. */
  ghost predicate Fits(db: Db, x: Exec) {
    && x.seen.base == db.session.base
    && (x.pending.Some? ==> x.pending.value < |db.plans|)
    && (x.pending.Some? && !x.streaming ==> db.plans[x.pending.value].Sendable())
  }

  /** One execution at a time, with a plan that fits it. */
  ghost predicate Loose(w: World) {
    && |w.execs| <= 1
    && RowsName(w.db.plans)
    && forall e | e in w.execs :: Fits(w.db, w.execs[e])
  }

  /** As `Loose`, with the plan it carries unconfirmed. */
  ghost predicate Sound(w: World) {
    Loose(w) && forall e | e in w.execs :: Unsettled(w.db, w.execs[e].pending)
  }

  /** The end of a reply speaks about a change that was confirmed by hand only where the history still
      stands at that change. */
  ghost predicate Harmless(w: World, step: Step, effort: Effort) {
    step.StreamEnds? && Streaming(w, step.e) && w.execs[step.e].pending.Some? ==>
      var i := w.execs[step.e].pending.value;
      i < |w.db.plans| && w.db.plans[i].status == Confirmed && w.db.plans[i].action.Change? ==>
        w.db.plans[i].toEffort == Some(effort)
  }

  ghost predicate AllHarmless(w: World, steps: seq<Step>) {
    steps == [] ||
    (var front, last := steps[..|steps| - 1], steps[|steps| - 1];
     AllHarmless(w, front) && Harmless(Run(w, front, 1), last, History(w, front, 1)))
  }

  lemma OneRowConfirmed(before: seq<PlanRow>, i: nat, row: PlanRow)
    requires i < |before|
    ensures NewlyConfirmed(before, before[i := row]) ==
              if before[i].status != Confirmed && row.status == Confirmed then Some(row) else None
  {
    var after := before[i := row];
    forall k | 0 <= k < |before| && before[k].status != Confirmed && after[k].status == Confirmed ensures k == i {}
    if before[i].status != Confirmed && row.status == Confirmed {
      assert before[i].status != Confirmed && after[i].status == Confirmed;
    }
  }

  /** One fact about a carried plan moves the session exactly as it moves the history. */
  lemma TellRefines(db: Db, pending: Option<nat>, event: Event, seen: Option<Observation>, effort: Effort)
    requires Refines(db, effort) && RowsName(db.plans) && Unsettled(db, pending)
    ensures var after := Tell(db, pending, event, seen);
            && after.session.epoch == db.session.epoch
            && RowsName(after.plans)
            && Refines(after, Believed(db, after, effort))
            && (event == WasAccepted && seen.None? ==>
                  Unsettled(after, pending) && NewlyConfirmed(db.plans, after.plans).None?)
  {
    if pending.Some? {
      OneRowConfirmed(db.plans, pending.value, AdvancePlan(db, pending.value, event, seen).plans[pending.value]);
    }
  }

  lemma AcceptedRefines(db: Db, x: Exec, anchor: Option<nat>, effort: Effort)
    requires Refines(db, effort) && RowsName(db.plans) && Fits(db, x) && !x.streaming
    ensures var after := OnAccepted(db, x, anchor);
            && RowsName(after.plans) && Fits(after, x.(streaming := true)) && Unsettled(after, x.pending)
            && Refines(after, Believed(db, after, effort))
  {
    TellRefines(Activate(db, x.seen), x.pending, WasAccepted, None, effort);
    var told := Tell(Activate(db, x.seen), x.pending, WasAccepted, None);
    if x.pending.Some? {
      var i := x.pending.value;
      assert Anchor(told, x.pending, anchor).plans == db.plans[i := Anchor(told, x.pending, anchor).plans[i]];
      OneRowConfirmed(db.plans, i, Anchor(told, x.pending, anchor).plans[i]);
    }
  }

  lemma FinishedRefines(db: Db, x: Exec, clean: bool, seen: Observation, effort: Effort)
    requires Refines(db, effort) && RowsName(db.plans) && Unsettled(db, x.pending)
    ensures var after := OnFinished(db, x, clean, seen);
            RowsName(after.plans) && Refines(after, Believed(db, after, effort))
  {
    var event := if seen.Completed() && clean then WasCompleted else WentUnknown;
    TellRefines(Observe(db, seen), x.pending, event, Some(seen), effort);
  }

  /** When an accepted reply ends, the session still says what the history says exactly when the end is
      harmless: its plan had not been confirmed by hand, or the session is still where that plan put it. */
  lemma {:induction false} LateReplyRefinesIff(w: World, e: nat, clean: bool, seen: Observation, effort: Effort)
    requires Streaming(w, e) && Fits(w.db, w.execs[e]) && RowsName(w.db.plans) && Refines(w.db, effort)
    ensures var v := Finish(w, e, clean, seen);
            && RowsName(v.db.plans)
            && (Refines(v.db, Believed(w.db, v.db, effort)) <==> Harmless(w, StreamEnds(e, clean, seen), effort))
  {
    var x := w.execs[e];
    if Unsettled(w.db, x.pending) {
      FinishedRefines(w.db, x, clean, seen, effort);
    } else {
      ConfirmedIsToldAgain(w.db, x, clean, seen, effort);
    }
  }

  lemma {:induction false} ConfirmedIsToldAgain(db: Db, x: Exec, clean: bool, seen: Observation, effort: Effort)
    requires x.pending.Some? && x.pending.value < |db.plans| && db.plans[x.pending.value].status == Confirmed
    requires RowsName(db.plans) && Refines(db, effort)
    ensures var after, row := OnFinished(db, x, clean, seen), db.plans[x.pending.value];
            && RowsName(after.plans)
            && (Refines(after, Believed(db, after, effort)) <==> row.action.Change? ==> row.toEffort == Some(effort))
  {
    var i, after := x.pending.value, OnFinished(db, x, clean, seen);
    OneRowConfirmed(db.plans, i, after.plans[i]);
    assert after.plans == db.plans[i := after.plans[i]];
  }

  lemma SettleRefines(db: Db, i: nat, outcome: Outcome, effort: Effort)
    requires i < |db.plans| && Refines(db, effort) && RowsName(db.plans)
    ensures var after := Settle(db, i, outcome);
            && |after.plans| == |db.plans|
            && (forall k | 0 <= k < |db.plans| && k != i :: after.plans[k] == db.plans[k])
            && (db.plans[i].Sendable() ==> after.plans[i] == db.plans[i])
            && after.session.base == db.session.base
            && RowsName(after.plans) && Refines(after, Believed(db, after, effort))
  {
    if db.plans[i].Reconcilable() {
      OneRowConfirmed(db.plans, i, Settle(db, i, outcome).plans[i]);
    }
  }

  lemma RecordRefines(db: Db, seen: Session, turnId: string, p: PlanFields, mode: Mode, effort: Effort)
    requires Refines(db, effort) && RowsName(db.plans) && Names(p)
    ensures var after := Record(db, seen, turnId, p, mode);
            && db.plans <= after.plans && after.session.base == db.session.base
            && RowsName(after.plans) && Refines(after, Believed(db, after, effort))
  {
  }

  lemma FailLoose(w: World, e: nat, event: Event, effort: Effort)
    requires Loose(w) && Balanced(w, 1) && Refines(w.db, effort)
    ensures var v := Fail(w, e, event);
            && Loose(v) && Refines(v.db, Believed(w.db, v.db, effort))
            && (Sound(w) ==> Sound(v))
  {
    hide Tell, Believed;
    NothingHappens(w.db, effort);
    if Sending(w, e) {
      TellRefines(w.db, w.execs[e].pending, event, None, effort);
      OverBalanced(w, e, Tell(w.db, w.execs[e].pending, event, None), 1);
    }
  }

  lemma {:induction false} FinishLoose(w: World, e: nat, clean: bool, seen: Observation, effort: Effort)
    requires Loose(w) && Balanced(w, 1) && Refines(w.db, effort)
    ensures var v := Finish(w, e, clean, seen);
            && Loose(v) && (Sound(w) ==> Sound(v))
            && (Refines(v.db, Believed(w.db, v.db, effort)) <==> Harmless(w, StreamEnds(e, clean, seen), effort))
  {
    hide OnFinished, Believed;
    NothingHappens(w.db, effort);
    if Streaming(w, e) {
      LateReplyRefinesIff(w, e, clean, seen, effort);
      OverBalanced(w, e, OnFinished(w.db, w.execs[e], clean, seen), 1);
    }
  }

  lemma {:induction false} AcceptLoose(w: World, e: nat, anchor: Option<nat>, effort: Effort)
    requires Loose(w) && Balanced(w, 1) && Refines(w.db, effort)
    ensures var v := Accept(w, e, anchor);
            && Loose(v) && Refines(v.db, Believed(w.db, v.db, effort))
            && (Sound(w) ==> Sound(v))
  {
    hide OnAccepted, Believed;
    NothingHappens(w.db, effort);
    if Sending(w, e) {
      AcceptedRefines(w.db, w.execs[e], anchor, effort);
      OverBalanced(w, e, w.db, 1);
      AcceptBalanced(w, e, anchor, 1);
    }
  }

  lemma PlanEndLoose(w: World, p: nat, plan: PlanFields, mode: Mode, effort: Effort)
    requires Loose(w) && Refines(w.db, effort) && Names(plan)
    ensures var v := EndPlan(w, p, plan, mode);
            && Loose(v) && Refines(v.db, Believed(w.db, v.db, effort))
            && (Sound(w) ==> Sound(v))
  {
    hide Record, Believed;
    NothingHappens(w.db, effort);
    if p in w.planners {
      RecordRefines(w.db, w.planners[p].seen, w.planners[p].turnId, plan, mode, effort);
    }
  }

  lemma ReconcileLoose(w: World, i: nat, outcome: Outcome, effort: Effort)
    requires Loose(w) && Refines(w.db, effort)
    ensures var v := Reconcile(w, i, outcome);
            && Loose(v) && Refines(v.db, Believed(w.db, v.db, effort))
            && (Sound(w) && (forall e | e in w.execs :: w.execs[e].pending != Some(i)) ==> Sound(v))
  {
    hide Settle, Believed;
    NothingHappens(w.db, effort);
    if i < |w.db.plans| {
      SettleRefines(w.db, i, outcome, effort);
    }
  }

  /** One step of the protocol moves session row and history alike, unless it is the harmful end of a reply. */
  lemma {:induction false} LooseStep(w: World, step: Step, effort: Effort)
    requires Loose(w) && Balanced(w, 1) && Refines(w.db, effort) && Named(step)
    ensures var v := Next(w, step, 1);
            && Loose(v)
            && (Refines(v.db, Believed(w.db, v.db, effort)) <==> Harmless(w, step, effort))
            && (Sound(w) && Quiet(w, step) ==> Sound(v))
  {
    hide Fail, Finish, Accept, EndPlan, Reconcile, Believed, MayPlan;
    NothingHappens(w.db, effort);
    ClaimsStep(w, step, 1);
    match step
    case PlanEnds(p, plan, mode) => PlanEndLoose(w, p, plan, mode, effort);
    case SendFails(e, refused) => FailLoose(w, e, if refused then WasRejected else WentUnknown, effort);
    case SendAborts(e) => FailLoose(w, e, WentUnknown, effort);
    case Answers(e, ok, anchor) =>
      AcceptLoose(w, e, anchor, effort);
      FailLoose(w, e, WasRejected, effort);
    case StreamEnds(e, clean, seen) => FinishLoose(w, e, clean, seen, effort);
    case Reconciles(i, outcome) => ReconcileLoose(w, i, outcome, effort);
    case _ =>
  }

  lemma {:induction false} SoundStep(w: World, step: Step, effort: Effort)
    requires Sound(w) && Balanced(w, 1) && Refines(w.db, effort) && Quiet(w, step)
    ensures var v := Next(w, step, 1); Sound(v) && Refines(v.db, Believed(w.db, v.db, effort))
  {
    hide Next, Believed;
    LooseStep(w, step, effort);
  }

  lemma NothingHappens(db: Db, effort: Effort)
    ensures Believed(db, db, effort) == effort
  {
  }

  /** With one execution in flight at a time and quiet reconciliations, the effective effort is
      the confirmed effort, and both are what the ledger's history comes to. */
  lemma {:induction false} LedgerRefinement(w: World, steps: seq<Step>)
    requires Initial(w) && AllQuiet(w, steps, 1)
    ensures var v := Run(w, steps, 1); Sound(v) && Refines(v.db, History(w, steps, 1))
  {
    hide Next, Believed;
    if steps != [] {
      var earlier := steps[..|steps| - 1];
      LedgerRefinement(w, earlier);
      ClaimsConserved(w, earlier, 1);
      SoundStep(Run(w, earlier, 1), steps[|steps| - 1], History(w, earlier, 1));
    }
  }

  /** The session row is what the history comes to, after every step of the run. */
  ghost predicate AlwaysRefines(w: World, steps: seq<Step>) {
    Refines(Run(w, steps, 1).db, History(w, steps, 1)) &&
    (steps != [] ==> AlwaysRefines(w, steps[..|steps| - 1]))
  }

  /** Whoever reconciles what and when: with one execution in flight at a time the session row is what the
      history comes to in every state of a run exactly when every end of a reply is harmless. */
  lemma {:induction false} LedgerRefinementIff(w: World, steps: seq<Step>)
    requires Initial(w) && AllNamed(steps)
    ensures AlwaysRefines(w, steps) <==> AllHarmless(w, steps)
    ensures AlwaysRefines(w, steps) ==> Loose(Run(w, steps, 1))
  {
    hide Next, Believed, Harmless, Loose, Refines;
    if steps == [] {
      InitialRefines(w);
    } else {
      var earlier, last := steps[..|steps| - 1], steps[|steps| - 1];
      LedgerRefinementIff(w, earlier);
      if AlwaysRefines(w, earlier) {
        assert Named(last);
        assert Refines(Run(w, earlier, 1).db, History(w, earlier, 1));
        ClaimsConserved(w, earlier, 1);
        LooseStep(Run(w, earlier, 1), last, History(w, earlier, 1));
      }
    }
  }

  lemma InitialRefines(w: World)
    requires Initial(w)
    ensures Loose(w) && Refines(w.db, w.db.session.base)
  {}
}
