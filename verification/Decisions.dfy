/** What the end of a plan request writes down, what its mode lets it move, and what becomes of the row. */
module Decisions {
  import opened Prelude
  import opened EffortPolicy
  import opened Ledger
  import opened Sessions
  import opened Protocol

  // --- one decision ----------------------------------------------------------

  /** An update confirmed by hand that nobody saw land stands among the newest 50 plans, in this epoch or later. */
  ghost predicate HoleInSight(plans: seq<PlanRow>, epoch: nat) {
    exists k :: 0 <= k < |plans| && |plans| - 50 <= k && plans[k].epoch >= epoch
                && plans[k].action.Change? && plans[k].reconciled == Some(Applied) && plans[k].anchor.None?
  }

  lemma HoleIsFound(plans: seq<PlanRow>, epoch: nat)
    ensures ReconciliationHole(PlansThisEpoch(plans, epoch)).Some? <==> HoleInSight(plans, epoch)
  {
    var window := Window(plans);
    if HoleInSight(plans, epoch) {
      var k :| 0 <= k < |plans| && |plans| - 50 <= k && plans[k].epoch >= epoch && plans[k].Hole();
      assert plans[k] == window[k - (|plans| - |window|)];
      assert plans[k] in PlansThisEpoch(plans, epoch);
    }
    if row :| row in PlansThisEpoch(plans, epoch) && row.Hole() {
      var i :| 0 <= i < |window| && window[i] == row;
      assert plans[|plans| - |window| + i] == row;
    }
  }

  lemma {:induction false} SequenceIsNew(plans: seq<PlanRow>)
    ensures forall k | 0 <= k < |plans| :: plans[k].sequence < NextSequence(plans)
    ensures NextSequence(plans) == 1 || exists k :: 0 <= k < |plans| && NextSequence(plans) == plans[k].sequence + 1
  {
    if plans != [] {
      SequenceIsNew(plans[..|plans| - 1]);
    }
  }

  /** The end of a plan request, for a turn that has no plan yet: one new row, which keeps the recommendation and
      the effort the turn came from. A change that meets a hole is blocked in either mode; without one it is acted
      on live and held back in shadow. Anything else is written as it was planned. Only a live change without a
      hole moves the session, and of the session only the expected effort, if nobody wrote the row meanwhile. */
  lemma DecisionByMode(w: World, p: nat, plan: PlanFields, mode: Mode, cap: nat)
    requires p in w.planners && forall k | 0 <= k < |w.db.plans| :: w.db.plans[k].turnId != w.planners[p].turnId
    ensures var v, asked := Next(w, PlanEnds(p, plan, mode), cap), w.planners[p];
            var before, n := w.db.session, |w.db.plans|;
            && |v.db.plans| == n + 1 && v.db.plans[..n] == w.db.plans
            && var row, hole := v.db.plans[n], HoleInSight(w.db.plans, asked.seen.epoch);
               && row.turnId == asked.turnId && row.epoch == asked.seen.epoch && row.status == Planned
               && row.recommendation == plan.recommendation && row.fromEffort == plan.fromEffort
               && row.confirmedEffort.None? && row.reconciled.None? && row.anchor.None?
               && (forall k | 0 <= k < n :: w.db.plans[k].sequence < row.sequence)
               && (row.sequence == 1 || exists k :: 0 <= k < n && row.sequence == w.db.plans[k].sequence + 1)
               && (row.action, row.toEffort) ==
                    (if !plan.action.Change? || (mode.Live? && !hole) then (plan.action, plan.toEffort)
                     else (if hole then Blocked else Keep, plan.fromEffort))
               && v.db.session ==
                    (if row.action.Change? && asked.seen.version == before.version
                     then before.(version := before.version + 1,
                                  expected := match row.toEffort case Some(e) => e case None => before.expected)
                     else before)
  {
    hide NextSequence, PlansThisEpoch, ReconciliationHole, MayPlan;
    HoleIsFound(w.db.plans, w.planners[p].seen.epoch);
    SequenceIsNew(w.db.plans);
  }

  // --- what stays of it --------------------------------------------------------

  /** Of a row only what became of it has changed, not what was decided. */
  ghost predicate SameDecision(a: PlanRow, b: PlanRow) {
    b == a.(status := b.status, confirmedEffort := b.confirmedEffort, reconciled := b.reconciled, anchor := b.anchor)
  }

  ghost predicate KeepsDecisions(before: Db, after: Db) {
    && |before.plans| <= |after.plans|
    && forall k | 0 <= k < |before.plans| :: SameDecision(before.plans[k], after.plans[k])
  }

  /** Nothing planned is a change, and the session stands on its base. */
  ghost predicate Inert(db: Db, base: Effort, expected: Effort) {
    && (forall k | 0 <= k < |db.plans| :: !db.plans[k].action.Change?)
    && db.session.effective == db.session.confirmed == db.session.base == base
    && (db.session.expected == expected || db.session.expected == base)
  }

  /** A row names a confirmed effort exactly when its change was confirmed or it was applied by hand, and then the
      effort it was to go to; what was applied by hand stays confirmed. */
  ghost predicate NamesConfirmed(row: PlanRow) {
    && (row.reconciled == Some(Applied) ==> row.status == Confirmed)
    && row.confirmedEffort ==
      if row.status == Confirmed && (row.action.Change? || row.reconciled == Some(Applied)) then row.toEffort else None
  }

  ghost predicate AllNameConfirmed(db: Db) { forall k | 0 <= k < |db.plans| :: NamesConfirmed(db.plans[k]) }

  lemma ToldDecides(db: Db, pending: Option<nat>, event: Event, seen: Option<Observation>, base: Effort,
                    expected: Effort)
    ensures var after := Tell(db, pending, event, seen);
            && (AllNameConfirmed(db) ==> AllNameConfirmed(after))
            && KeepsDecisions(db, after) && |after.plans| == |db.plans|
            && (Inert(db, base, expected) ==> Inert(after, base, expected))
  {}

  lemma AcceptedDecides(db: Db, x: Exec, anchor: Option<nat>, base: Effort, expected: Effort)
    ensures var after := OnAccepted(db, x, anchor);
            && (AllNameConfirmed(db) ==> AllNameConfirmed(after))
            && KeepsDecisions(db, after) && |after.plans| == |db.plans|
            && (Inert(db, base, expected) && x.seen.base == base ==> Inert(after, base, expected))
  {
    hide Tell;
    ToldDecides(Activate(db, x.seen), x.pending, WasAccepted, None, base, expected);
  }

  lemma FinishedDecides(db: Db, x: Exec, clean: bool, seen: Observation, base: Effort, expected: Effort)
    ensures var after := OnFinished(db, x, clean, seen);
            && (AllNameConfirmed(db) ==> AllNameConfirmed(after))
            && KeepsDecisions(db, after) && |after.plans| == |db.plans|
            && (Inert(db, base, expected) ==> Inert(after, base, expected))
  {
    hide Tell;
    var event := if seen.Completed() && clean then WasCompleted else WentUnknown;
    ToldDecides(Observe(db, seen), x.pending, event, Some(seen), base, expected);
  }

  lemma SettledDecides(db: Db, i: nat, outcome: Outcome, base: Effort, expected: Effort)
    requires i < |db.plans|
    ensures var after := Settle(db, i, outcome);
            && (AllNameConfirmed(db) ==> AllNameConfirmed(after))
            && KeepsDecisions(db, after) && |after.plans| == |db.plans|
            && (Inert(db, base, expected) ==> Inert(after, base, expected))
  {}

  /** A row as the end of a plan request writes it: what was recommended is kept, only a live change is a change,
      and what is not planned as one is written as planned. */
  ghost predicate WrittenBy(row: PlanRow, step: Step) {
    && step.PlanEnds?
    && row.recommendation == step.plan.recommendation && row.fromEffort == step.plan.fromEffort
    && (row.action.Change? ==> step.plan.action.Change? && step.mode.Live?)
    && (row.action, row.toEffort) in
         (if step.plan.action.Change?
          then {(Change, step.plan.toEffort), (Keep, row.fromEffort), (Blocked, row.fromEffort)}
          else {(step.plan.action, step.plan.toEffort)})
  }

  /** No turn has two rows, and sequence numbers rise. */
  ghost predicate Numbered(plans: seq<PlanRow>) {
    forall i, j | 0 <= i < j < |plans| :: plans[i].turnId != plans[j].turnId && plans[i].sequence < plans[j].sequence
  }

  lemma RecordedDecides(w: World, p: nat, plan: PlanFields, mode: Mode, base: Effort, expected: Effort, cap: nat)
    requires p in w.planners
    ensures var before, after, step := w.db, Next(w, PlanEnds(p, plan, mode), cap).db, PlanEnds(p, plan, mode);
            && KeepsDecisions(before, after) && |after.plans| <= |before.plans| + 1
            && (|before.plans| < |after.plans| ==> WrittenBy(after.plans[|before.plans|], step))
            && (Numbered(before.plans) ==> Numbered(after.plans))
            && (AllNameConfirmed(before) ==> AllNameConfirmed(after))
            && (Inert(before, base, expected) && mode.Shadow? ==> Inert(after, base, expected))
  {
    hide NextSequence, PlansThisEpoch, ReconciliationHole, MayPlan;
    SequenceIsNew(w.db.plans);
  }

  lemma StaysNumbered(before: Db, after: Db)
    requires KeepsDecisions(before, after) && |after.plans| == |before.plans| && Numbered(before.plans)
    ensures Numbered(after.plans)
  {
    forall i, j | 0 <= i < j < |after.plans|
      ensures after.plans[i].turnId != after.plans[j].turnId && after.plans[i].sequence < after.plans[j].sequence
    {
      assert SameDecision(before.plans[i], after.plans[i]) && SameDecision(before.plans[j], after.plans[j]);
    }
  }

  /** Every execution knows the session's base. */
  ghost predicate KnowsBase(w: World, base: Effort) {
    forall e | e in w.execs :: w.execs[e].seen.base == base
  }

  /** One step of a run: no decision is rewritten, only the end of a plan request writes a new one, and where
      nothing was planned as a change only such an end under `live` can move the session off its base. */
  lemma {:induction false} DecisionsStep(w: World, step: Step, base: Effort, expected: Effort, cap: nat)
    ensures var v := Next(w, step, cap);
            && KeepsDecisions(w.db, v.db) && |v.db.plans| <= |w.db.plans| + 1
            && (|w.db.plans| < |v.db.plans| ==> WrittenBy(v.db.plans[|w.db.plans|], step))
            && (Numbered(w.db.plans) ==> Numbered(v.db.plans))
            && (AllNameConfirmed(w.db) ==> AllNameConfirmed(v.db))
            && (Inert(w.db, base, expected) && KnowsBase(w, base) && !(step.PlanEnds? && step.mode.Live?) ==>
                  Inert(v.db, base, expected) && KnowsBase(v, base))
  {
    hide Tell, OnAccepted, OnFinished, Settle, Record, MayPlan, Carried, WrittenBy, Numbered;
    match step {
    case SendFails(e, refused) =>
      if Sending(w, e) {
        ToldDecides(w.db, w.execs[e].pending, if refused then WasRejected else WentUnknown, None, base, expected);
      }
    case SendAborts(e) =>
      if Sending(w, e) {
        ToldDecides(w.db, w.execs[e].pending, WentUnknown, None, base, expected);
      }
    case Answers(e, ok, anchor) =>
      if Sending(w, e) {
        ToldDecides(w.db, w.execs[e].pending, WasRejected, None, base, expected);
        AcceptedDecides(w.db, w.execs[e], anchor, base, expected);
      }
    case StreamEnds(e, clean, seen) =>
      if Streaming(w, e) {
        FinishedDecides(w.db, w.execs[e], clean, seen, base, expected);
      }
    case Reconciles(i, outcome) =>
      if i < |w.db.plans| {
        SettledDecides(w.db, i, outcome, base, expected);
      }
    case PlanEnds(p, plan, mode) =>
      if p in w.planners {
        RecordedDecides(w, p, plan, mode, base, expected, cap);
      }
    case _ =>
    }
    if |Next(w, step, cap).db.plans| == |w.db.plans| && Numbered(w.db.plans) {
      StaysNumbered(w.db, Next(w, step, cap).db);
    }
  }

  ghost predicate DecidedIn(row: PlanRow, steps: seq<Step>) {
    exists j :: 0 <= j < |steps| && WrittenBy(row, steps[j])
  }

  /** Every row of a run is what one end of a plan request wrote, whatever has become of it since; no turn has two,
      they stand in the order of their sequence numbers, and each names a confirmed effort when it should. */
  lemma {:induction false} RowsAreDecisions(w: World, steps: seq<Step>, cap: nat)
    requires w.db.plans == []
    ensures forall k | 0 <= k < |Run(w, steps, cap).db.plans| :: DecidedIn(Run(w, steps, cap).db.plans[k], steps)
    ensures Numbered(Run(w, steps, cap).db.plans) && AllNameConfirmed(Run(w, steps, cap).db)
  {
    hide Next, WrittenBy;
    if steps == [] {
      assert Run(w, steps, cap) == w;
    } else {
      var front, last := steps[..|steps| - 1], steps[|steps| - 1];
      RowsAreDecisions(w, front, cap);
      var u, v := Run(w, front, cap), Run(w, steps, cap);
      DecisionsStep(u, last, "", "", cap);
      forall k | 0 <= k < |v.db.plans| ensures DecidedIn(v.db.plans[k], steps) {
        if k < |u.db.plans| {
          var j :| 0 <= j < |front| && WrittenBy(u.db.plans[k], front[j]);
          SameWriting(u.db.plans[k], v.db.plans[k], front[j]);
          assert steps[j] == front[j];
        } else {
          assert steps[|front|] == last;
        }
      }
    }
  }

  lemma SameWriting(a: PlanRow, b: PlanRow, step: Step)
    requires SameDecision(a, b)
    ensures WrittenBy(a, step) <==> WrittenBy(b, step)
  {}

  /** While the experiment runs in shadow, nothing moves a session. Whatever is planned, sent, answered, compacted
      or reconciled by hand, no row is ever a change, effective and confirmed effort stay at the base, and the
      expected effort is that or what it was at the start. */
  lemma {:induction false} ShadowMovesNothing(w: World, steps: seq<Step>, cap: nat)
    requires Initial(w)
    requires forall j | 0 <= j < |steps| && steps[j].PlanEnds? :: steps[j].mode == Shadow
    ensures var v, start := Run(w, steps, cap), w.db.session;
            && KnowsBase(v, start.base)
            && (forall k | 0 <= k < |v.db.plans| :: !v.db.plans[k].action.Change?)
            && v.db.session.effective == v.db.session.confirmed == v.db.session.base == start.base
            && (v.db.session.expected == start.expected || v.db.session.expected == start.base)
  {
    hide Next;
    if steps != [] {
      ShadowMovesNothing(w, steps[..|steps| - 1], cap);
      DecisionsStep(Run(w, steps[..|steps| - 1], cap), steps[|steps| - 1], w.db.session.base, w.db.session.expected,
                    cap);
    }
  }

  // --- how a session's efforts move ----------------------------------------------

  /** Effective, confirmed and expected effort are all `e`, or as they were where there is no such effort. */
  ghost predicate AllAt(before: Session, after: Session, e: Option<Effort>) {
    if e.Some? then after.effective == after.confirmed == after.expected == e.value
    else
      && after.effective == before.effective && after.confirmed == before.confirmed
      && after.expected == before.expected
  }

  lemma ToldMoves(db: Db, pending: Option<nat>, event: Event, seen: Option<Observation>)
    ensures var after := Tell(db, pending, event, seen);
            && |after.plans| == |db.plans|
            && AllAt(db.session, after.session,
                     if pending.Some? && pending.value < |db.plans| && after.plans[pending.value].action.Change?
                        && after.plans[pending.value].status == Confirmed
                     then after.plans[pending.value].toEffort else None)
  {}

  /** The end of a reply confirms the change it carried when it was accepted and ran to a readable completion, and
      says so once more of one that was confirmed before. */
  ghost predicate Confirms(row: PlanRow, clean: bool, seen: Observation) {
    row.action.Change? &&
    (row.status == Confirmed ||
     (row.status == Accepted && clean && seen.status == "completed" && !seen.parseFailed))
  }

  lemma FinishedMoves(db: Db, x: Exec, clean: bool, seen: Observation)
    ensures AllAt(db.session, OnFinished(db, x, clean, seen).session,
                  if x.pending.Some? && x.pending.value < |db.plans| && Confirms(db.plans[x.pending.value], clean, seen)
                  then db.plans[x.pending.value].toEffort else None)
  {
    hide Tell;
    var event := if seen.Completed() && clean then WasCompleted else WentUnknown;
    ToldMoves(Observe(db, seen), x.pending, event, Some(seen));
    if x.pending.Some? && x.pending.value < |db.plans| {
      ToldConfirms(Observe(db, seen), x.pending, event, seen);
    }
  }

  lemma ToldConfirms(db: Db, pending: Option<nat>, event: Event, seen: Observation)
    requires pending.Some? && pending.value < |db.plans| && event in {WasCompleted, WentUnknown}
    ensures var before, after := db.plans[pending.value], Tell(db, pending, event, Some(seen)).plans[pending.value];
            && after.action == before.action && after.toEffort == before.toEffort
            && (after.status == Confirmed <==>
                  before.status == Confirmed ||
                  (before.status == Accepted && event == WasCompleted && !seen.parseFailed))
  {}

  /** The change an execution carries, where it has been confirmed already. */
  ghost function Again(w: World, e: nat): Option<Effort> {
    if e in w.execs && w.execs[e].pending.Some? && w.execs[e].pending.value < |w.db.plans| then
      var row := w.db.plans[w.execs[e].pending.value];
      if row.action.Change? && row.status == Confirmed then row.toEffort else None
    else None
  }

  lemma ToldAgain(w: World, e: nat, db: Db, event: Event)
    requires e in w.execs && db.plans == w.db.plans && event in {WasAccepted, WasRejected, WentUnknown}
    ensures AllAt(db.session, Tell(db, w.execs[e].pending, event, None).session, Again(w, e))
  {}

  lemma AcceptedMoves(w: World, e: nat, anchor: Option<nat>)
    requires e in w.execs
    ensures AllAt(w.db.session, OnAccepted(w.db, w.execs[e], anchor).session,
                  if w.execs[e].maintenance then Some(w.execs[e].seen.base) else Again(w, e))
  {
    hide Tell, Again;
    ToldAgain(w, e, Activate(w.db, w.execs[e].seen), WasAccepted);
  }

  lemma SettledMoves(db: Db, i: nat, outcome: Outcome)
    requires i < |db.plans|
    ensures var row := db.plans[i];
            AllAt(db.session, Settle(db, i, outcome).session,
                  if row.action.Change? && row.status in {Accepted, OutcomeUnknown}
                  then if outcome.Applied? then row.toEffort else Some(db.session.confirmed)
                  else None)
  {}

  /** What a step other than the end of a plan request does to a session's efforts. They move together or not at all:
      to a change that a reply's end confirms or a person says was applied, back to the confirmed effort where a
      person says it was not, and to the base a compaction was sent with when that is accepted. */
  lemma {:induction false} EffortsMove(w: World, step: Step, cap: nat)
    requires !step.PlanEnds?
    ensures AllAt(w.db.session, Next(w, step, cap).db.session,
                  match step
                  case Reconciles(i, outcome) =>
                    if i < |w.db.plans| && w.db.plans[i].action.Change? &&
                       w.db.plans[i].status in {Accepted, OutcomeUnknown}
                    then if outcome.Applied? then w.db.plans[i].toEffort else Some(w.db.session.confirmed)
                    else None
                  case StreamEnds(e, clean, seen) =>
                    if Streaming(w, e) && w.execs[e].pending.Some? && w.execs[e].pending.value < |w.db.plans| &&
                       Confirms(w.db.plans[w.execs[e].pending.value], clean, seen)
                    then w.db.plans[w.execs[e].pending.value].toEffort else None
                  case Answers(e, ok, _) =>
                    if !Sending(w, e) then None
                    else if ok && w.execs[e].maintenance then Some(w.execs[e].seen.base) else Again(w, e)
                  case SendFails(e, _) => if Sending(w, e) then Again(w, e) else None
                  case SendAborts(e) => if Sending(w, e) then Again(w, e) else None
                  case _ => None)
  {
    hide Tell, OnAccepted, OnFinished, Settle, MayPlan, Carried, Confirms, Again;
    match step
    case SendFails(e, refused) =>
      if Sending(w, e) {
        ToldAgain(w, e, w.db, if refused then WasRejected else WentUnknown);
      }
    case SendAborts(e) =>
      if Sending(w, e) {
        ToldAgain(w, e, w.db, WentUnknown);
      }
    case Answers(e, ok, anchor) =>
      if Sending(w, e) {
        ToldAgain(w, e, w.db, WasRejected);
        AcceptedMoves(w, e, anchor);
      }
    case StreamEnds(e, clean, seen) =>
      if Streaming(w, e) {
        FinishedMoves(w.db, w.execs[e], clean, seen);
      }
    case Reconciles(i, outcome) =>
      if i < |w.db.plans| {
        SettledMoves(w.db, i, outcome);
      }
    case _ =>
  }

  /** What a person may settle by hand: exactly a row that was accepted or of unknown outcome, for good. It ends
      confirmed or refused, says who settled it and keeps its decision and anchor, and the lineage is known again.
      Of any other row nothing is written. */
  lemma ReconciledByHand(w: World, i: nat, outcome: Outcome, cap: nat)
    requires i < |w.db.plans|
    ensures var v, row := Next(w, Reconciles(i, outcome), cap), w.db.plans[i];
            if row.status == Accepted || row.status == OutcomeUnknown then
              && |v.db.plans| == |w.db.plans| && (forall k | 0 <= k < |w.db.plans| && k != i ::
                    v.db.plans[k] == w.db.plans[k])
              && v.db.plans[i].status == (if outcome.Applied? then Confirmed else Rejected)
              && v.db.plans[i].reconciled == Some(outcome)
              && v.db.plans[i].anchor == row.anchor && SameDecision(row, v.db.plans[i])
              && !v.db.session.lineageUnknown
              && v.db.session.compactionUnknown == w.db.session.compactionUnknown
            else v == w
  {}
}
