/** When one change at a time holds, under two habits of a client: its plan requests do not overlap, and it
    sends only its newest plan. */
module OneChange {
  import opened Prelude
  import opened EffortPolicy
  import opened Ledger
  import opened Sessions
  import opened Protocol
  import opened ProtocolLimits

  // --- the habits ----------------------------------------------------------

  predicate Habit(w: World, step: Step) {
    && (step.PlanBegins? ==> w.planners == map[])
    && (step.ExecBegins? && step.named.Some? ==> step.named.value == |w.db.plans| - 1)
  }

  predicate AllHabits(w: World, steps: seq<Step>, cap: nat) {
    steps == [] ||
    (var front, last := steps[..|steps| - 1], steps[|steps| - 1];
     AllHabits(w, front, cap) && Habit(Run(w, front, cap), last))
  }

  ghost predicate Carrying(w: World, j: nat) {
    exists e | e in w.execs :: w.execs[e].pending == Some(j)
  }

  /** A change of this epoch that is open, or refused and on its way to the provider again. */
  ghost predicate Alive(w: World, j: nat)
    requires j < |w.db.plans|
  {
    var row := w.db.plans[j];
    OpenNow(w.db, j) ||
    (row.action.Change? && row.epoch >= w.db.session.epoch && row.status == Rejected && Carrying(w, j))
  }

  /** This step writes down a change of the current epoch. */
  predicate RecordsChange(w: World, step: Step, cap: nat) {
    var v := Next(w, step, cap);
    step.PlanEnds? && |w.db.plans| < |v.db.plans| && OpenNow(v.db, |w.db.plans|)
  }

  /** A recorded change found no open change and no execution still carrying one. */
  ghost predicate Clean(w: World, step: Step, cap: nat) {
    RecordsChange(w, step, cap) ==> forall j | 0 <= j < |w.db.plans| :: !Alive(w, j)
  }

  ghost predicate AllClean(w: World, steps: seq<Step>, cap: nat) {
    steps == [] ||
    (var front, last := steps[..|steps| - 1], steps[|steps| - 1];
     AllClean(w, front, cap) && Clean(Run(w, front, cap), last, cap))
  }

  predicate RecordsNothing(steps: seq<Step>) {
    forall i | 0 <= i < |steps| :: !steps[i].PlanEnds?
  }

  /** However the run goes on with nothing more recorded, no two changes are open. */
  ghost predicate SafeFrom(w: World, cap: nat) {
    forall more | RecordsNothing(more) && AllHabits(w, more, cap) :: AtMostOne(Run(w, more, cap))
  }

  /** Every state of the run is safe. */
  ghost predicate NeverTwo(w: World, steps: seq<Step>, cap: nat) {
    SafeFrom(Run(w, steps, cap), cap) && (steps != [] ==> NeverTwo(w, steps[..|steps| - 1], cap))
  }

  // --- the invariant -------------------------------------------------------

  /** What an execution carries is in the table, and a compaction carries nothing. */
  ghost predicate Tidy(w: World) {
    forall e | e in w.execs && w.execs[e].pending.Some? ::
      w.execs[e].pending.value < |w.db.plans| && !w.execs[e].maintenance
  }

  /** Below a change of this epoch nothing is alive. */
  ghost predicate Stacked(w: World) {
    forall j, k | 0 <= j < k < |w.db.plans| && w.db.plans[k].action.Change? &&
                  w.db.plans[k].epoch >= w.db.session.epoch ::
      !Alive(w, j)
  }

  /** Rows keep their place, action and epoch, and the epoch never goes back. */
  ghost predicate Extends(before: Db, after: Db) {
    && |before.plans| <= |after.plans| && before.session.epoch <= after.session.epoch
    && forall k | 0 <= k < |before.plans| ::
         after.plans[k].action == before.plans[k].action && after.plans[k].epoch == before.plans[k].epoch
  }

  /** Row `j` is as it was, or is settled for good, or was spoken about because it was carried. */
  ghost predicate Untouched(before: Db, after: Db, j: nat) {
    && j < |before.plans| && Extends(before, after)
    && (after.plans[j].status == before.plans[j].status ||
        before.plans[j].OpenChange() || !before.plans[j].action.Change?)
  }

  lemma ToldRow(db: Db, pending: Option<nat>, event: Event, seen: Option<Observation>, j: nat)
    ensures var after := Tell(db, pending, event, seen);
            && Extends(db, after) && |after.plans| == |db.plans|
            && (j < |db.plans| && (pending != Some(j) || db.plans[j].status != Rejected) ==> Untouched(db, after, j))
  {}

  lemma AcceptedRow(db: Db, x: Exec, anchor: Option<nat>, j: nat)
    ensures var after := OnAccepted(db, x, anchor);
            && Extends(db, after) && |after.plans| == |db.plans|
            && (j < |db.plans| && (x.pending != Some(j) || db.plans[j].status != Rejected) ==>
                  Untouched(db, after, j))
  {
    hide Tell;
    ToldRow(Activate(db, x.seen), x.pending, WasAccepted, None, j);
  }

  lemma FinishedRow(db: Db, x: Exec, clean: bool, seen: Observation, j: nat)
    ensures var after := OnFinished(db, x, clean, seen);
            && Extends(db, after) && |after.plans| == |db.plans|
            && (j < |db.plans| && (x.pending != Some(j) || db.plans[j].status != Rejected) ==>
                  Untouched(db, after, j))
  {
    hide Tell;
    var event := if seen.Completed() && clean then WasCompleted else WentUnknown;
    ToldRow(Observe(db, seen), x.pending, event, Some(seen), j);
  }

  lemma SettledRow(db: Db, i: nat, outcome: Outcome, j: nat)
    requires i < |db.plans|
    ensures var after := Settle(db, i, outcome);
            && Extends(db, after) && |after.plans| == |db.plans|
            && (j < |db.plans| ==> Untouched(db, after, j))
  {}

  lemma RecordedRow(db: Db, seen: Session, turnId: string, p: PlanFields, mode: Mode, j: nat)
    ensures var after := Record(db, seen, turnId, p, mode);
            && Extends(db, after) && |after.plans| <= |db.plans| + 1 && after.session.epoch == db.session.epoch
            && (j < |db.plans| ==> Untouched(db, after, j))
  {}

  /** Whose row stays as it was or was carried as refused, and who is carried no more than before. */
  ghost predicate Follows(w: World, v: World, j: nat) {
    && j < |w.db.plans| && Extends(w.db, v.db)
    && (Untouched(w.db, v.db, j) || (w.db.plans[j].status == Rejected && Carrying(w, j)))
    && (Carrying(v, j) ==> Carrying(w, j))
  }

  lemma DeadStays(w: World, v: World, j: nat)
    requires Follows(w, v, j) && !Alive(w, j)
    ensures !Alive(v, j)
  {
    hide Carrying;
  }

  lemma FailFollows(w: World, e: nat, event: Event, j: nat)
    ensures Extends(w.db, Fail(w, e, event).db) && |Fail(w, e, event).db.plans| == |w.db.plans|
    ensures j < |w.db.plans| ==> Follows(w, Fail(w, e, event), j)
  {
    hide Tell, Untouched, Extends;
    NothingTouched(w.db, j);
    if Sending(w, e) {
      ToldRow(w.db, w.execs[e].pending, event, None, j);
    }
  }

  lemma AcceptFollows(w: World, e: nat, anchor: Option<nat>, j: nat)
    ensures Extends(w.db, Accept(w, e, anchor).db) && |Accept(w, e, anchor).db.plans| == |w.db.plans|
    ensures j < |w.db.plans| ==> Follows(w, Accept(w, e, anchor), j)
  {
    hide OnAccepted, Untouched, Extends;
    NothingTouched(w.db, j);
    if Sending(w, e) {
      AcceptedRow(w.db, w.execs[e], anchor, j);
    }
  }

  lemma FinishFollows(w: World, e: nat, clean: bool, seen: Observation, j: nat)
    ensures Extends(w.db, Finish(w, e, clean, seen).db)
    ensures |Finish(w, e, clean, seen).db.plans| == |w.db.plans|
    ensures j < |w.db.plans| ==> Follows(w, Finish(w, e, clean, seen), j)
  {
    hide OnFinished, Untouched, Extends;
    NothingTouched(w.db, j);
    if Streaming(w, e) {
      FinishedRow(w.db, w.execs[e], clean, seen, j);
    }
  }

  lemma NothingTouched(db: Db, j: nat)
    ensures Extends(db, db) && (j < |db.plans| ==> Untouched(db, db, j))
  {}

  /** A step extends the table, and follows every row except the newest when that one is sent. */
  lemma {:induction false} StepFollows(w: World, step: Step, cap: nat, j: nat)
    requires Habit(w, step)
    ensures var v := Next(w, step, cap);
            && Extends(w.db, v.db) && |v.db.plans| <= |w.db.plans| + (if step.PlanEnds? then 1 else 0)
            && (j < |w.db.plans| && (step.ExecBegins? ==> j < |w.db.plans| - 1) ==> Follows(w, v, j))
  {
    hide Fail, Accept, Finish, Settle, Record, MayPlan, Untouched, Extends;
    NothingTouched(w.db, j);
    match step
    case SendFails(e, refused) => FailFollows(w, e, if refused then WasRejected else WentUnknown, j);
    case SendAborts(e) => FailFollows(w, e, WentUnknown, j);
    case Answers(e, ok, anchor) =>
      AcceptFollows(w, e, anchor, j);
      FailFollows(w, e, WasRejected, j);
    case StreamEnds(e, clean, seen) => FinishFollows(w, e, clean, seen, j);
    case Reconciles(i, outcome) =>
      if i < |w.db.plans| {
        SettledRow(w.db, i, outcome, j);
      }
    case PlanEnds(p, plan, mode) =>
      if p in w.planners {
        RecordedRow(w.db, w.planners[p].seen, w.planners[p].turnId, plan, mode, j);
      }
    case _ =>
  }

  /** A change of this epoch that a step appends is open. */
  lemma NewRowIsOpen(w: World, step: Step, cap: nat)
    requires Habit(w, step)
    requires var v := Next(w, step, cap);
             && |w.db.plans| < |v.db.plans| && v.db.plans[|w.db.plans|].action.Change?
             && v.db.plans[|w.db.plans|].epoch >= v.db.session.epoch
    ensures RecordsChange(w, step, cap)
  {
    hide Fail, Accept, Finish, Settle, MayPlan, Extends, Follows;
    StepFollows(w, step, cap, 0);
  }

  lemma {:induction false} StackedStep(w: World, step: Step, cap: nat)
    requires Stacked(w) && Habit(w, step) && Clean(w, step, cap)
    ensures Stacked(Next(w, step, cap))
  {
    hide Next, Alive, Follows, Habit, RecordsChange;
    var v := Next(w, step, cap);
    forall j, k | 0 <= j < k < |v.db.plans| && v.db.plans[k].action.Change? &&
                  v.db.plans[k].epoch >= v.db.session.epoch
      ensures !Alive(v, j)
    {
      StepFollows(w, step, cap, j);
      if k == |w.db.plans| {
        NewRowIsOpen(w, step, cap);
      }
      DeadStays(w, v, j);
    }
  }

  lemma StackedIsOne(w: World)
    requires Stacked(w)
    ensures AtMostOne(w)
  {
    forall j, k | 0 <= j < k < |w.db.plans| ensures !(OpenNow(w.db, j) && OpenNow(w.db, k)) {
      if OpenNow(w.db, k) {
        assert !Alive(w, j);
      }
    }
  }

  lemma {:induction false} StackedIsSafe(w: World, more: seq<Step>, cap: nat)
    requires Stacked(w) && RecordsNothing(more) && AllHabits(w, more, cap)
    ensures Stacked(Run(w, more, cap))
  {
    hide Next, Stacked, Habit;
    if more == [] {
    } else {
      var front, last := more[..|more| - 1], more[|more| - 1];
      StackedIsSafe(w, front, cap);
      assert !last.PlanEnds?;
      StackedStep(Run(w, front, cap), last, cap);
    }
  }

  lemma StackedIsSafeFrom(w: World, cap: nat)
    requires Stacked(w)
    ensures SafeFrom(w, cap)
  {
    hide Stacked, AtMostOne, RecordsNothing, AllHabits;
    forall more | RecordsNothing(more) && AllHabits(w, more, cap) ensures AtMostOne(Run(w, more, cap)) {
      StackedIsSafe(w, more, cap);
      StackedIsOne(Run(w, more, cap));
    }
  }

  // --- the breaking continuation -------------------------------------------

  /** Nothing the tap could read. */
  const LOST: Observation := Observation("", "", false, false)

  /** The provider's next word about a refused change that is on its way: it was accepted, or it was lost. */
  function NextWord(w: World, e: nat): Step
    requires e in w.execs
  {
    if w.execs[e].streaming then StreamEnds(e, false, LOST) else Answers(e, true, None)
  }

  lemma {:induction false} NextWordOpens(w: World, e: nat, j: nat, cap: nat)
    requires Tidy(w) && e in w.execs && w.execs[e].pending == Some(j) && w.db.plans[j].status == Rejected
    requires w.db.plans[j].action.Change? && w.db.plans[j].epoch >= w.db.session.epoch
    ensures var v := Next(w, NextWord(w, e), cap);
            && |v.db.plans| == |w.db.plans| && OpenNow(v.db, j)
            && forall k | 0 <= k < |w.db.plans| && k != j && OpenNow(w.db, k) :: OpenNow(v.db, k)
  {}

  lemma TidyStep(w: World, step: Step, cap: nat)
    requires Tidy(w) && Habit(w, step)
    ensures Tidy(Next(w, step, cap))
  {
    hide Tell, OnAccepted, OnFinished, Settle, Record, MayPlan, Follows;
    StepFollows(w, step, cap, 0);
  }

  /** What recording a change leaves alone. */
  lemma RecordedBeside(w: World, step: Step, cap: nat)
    requires RecordsChange(w, step, cap)
    ensures var v := Next(w, step, cap);
            && v.execs == w.execs && v.db.session.epoch == w.db.session.epoch
            && w.db.plans <= v.db.plans && |v.db.plans| == |w.db.plans| + 1 && OpenNow(v.db, |w.db.plans|)
  {}

  lemma NewestDecides(w: World, n: nat)
    requires |w.db.plans| == n + 1 && OpenNow(w.db, n)
    ensures AtMostOne(w) <==> forall j | 0 <= j < n :: !OpenNow(w.db, j)
  {
    hide OpenNow;
  }

  /** A change recorded beside one that is alive breaks, at once or at the provider's next word. */
  lemma {:induction false} UncleanBreaks(w: World, step: Step, cap: nat, j: nat)
    requires Tidy(w) && RecordsChange(w, step, cap) && j < |w.db.plans| && Alive(w, j)
    ensures !SafeFrom(Next(w, step, cap), cap)
  {
    hide Next, OpenNow, RecordsChange, Carried;
    var v, n := Next(w, step, cap), |w.db.plans|;
    RecordedBeside(w, step, cap);
    assert v.db.plans[j] == w.db.plans[j];
    if OpenNow(w.db, j) {
      SameRowOpen(w.db, v.db, j);
      NoStep(v, cap);
      NewestDecides(v, n);
      assert !AtMostOne(Run(v, [], cap));
    } else {
      var e :| e in w.execs && w.execs[e].pending == Some(j);
      NextWordOpens(v, e, j, cap);
      OneStep(v, NextWord(v, e), cap);
      NewestDecides(Next(v, NextWord(v, e), cap), n);
      assert !AtMostOne(Run(v, [NextWord(v, e)], cap));
    }
  }

  lemma SameRowOpen(before: Db, after: Db, j: nat)
    requires j < |before.plans| && j < |after.plans| && after.plans[j] == before.plans[j]
    requires after.session.epoch == before.session.epoch
    ensures OpenNow(after, j) == OpenNow(before, j)
  {}

  lemma NoStep(w: World, cap: nat)
    ensures Run(w, [], cap) == w && AllHabits(w, [], cap) && RecordsNothing([])
  {}

  lemma OneStep(w: World, step: Step, cap: nat)
    requires !step.PlanBegins? && !step.ExecBegins? && !step.PlanEnds?
    ensures Run(w, [step], cap) == Next(w, step, cap) && AllHabits(w, [step], cap) && RecordsNothing([step])
  {
    hide Next;
    assert [step][..0] == [];
    NoStep(w, cap);
    assert AllHabits(w, [step][..0], cap);
  }

  // --- the theorems ----------------------------------------------------------

  /** Where changes have been stacked so far, recording one stays safe, however the run goes on, exactly when
      no change is open by then and no execution still carries a refused one. Looking at the recording step
      alone, the open changes decide. */
  lemma {:induction false} RecordingKeepsOneIff(w: World, step: Step, cap: nat)
    requires Tidy(w) && Stacked(w) && Habit(w, step) && RecordsChange(w, step, cap)
    ensures SafeFrom(Next(w, step, cap), cap) <==> forall j | 0 <= j < |w.db.plans| :: !Alive(w, j)
    ensures AtMostOne(Next(w, step, cap)) <==> forall j | 0 <= j < |w.db.plans| :: !OpenNow(w.db, j)
  {
    hide Next, SafeFrom, Alive, Tidy, Stacked, RecordsChange, OpenNow;
    if j :| 0 <= j < |w.db.plans| && Alive(w, j) {
      UncleanBreaks(w, step, cap, j);
    } else {
      StackedStep(w, step, cap);
      StackedIsSafeFrom(Next(w, step, cap), cap);
    }
    RecordedBeside(w, step, cap);
    forall j | 0 <= j < |w.db.plans| ensures OpenNow(Next(w, step, cap).db, j) == OpenNow(w.db, j) {
      SameRowOpen(w.db, Next(w, step, cap).db, j);
    }
    NewestDecides(Next(w, step, cap), |w.db.plans|);
  }

  /** Under the two habits alone: every state of a run, and every state it can go on to without recording
      more, has at most one open change exactly when each change it recorded found no open change and no
      execution still carrying one. */
  lemma {:induction false} OneChangeIff(w: World, steps: seq<Step>, cap: nat)
    requires Initial(w) && AllHabits(w, steps, cap)
    ensures NeverTwo(w, steps, cap) <==> AllClean(w, steps, cap)
    ensures Tidy(Run(w, steps, cap)) && (AllClean(w, steps, cap) ==> Stacked(Run(w, steps, cap)))
  {
    hide Next, SafeFrom, Stacked, Tidy, Habit, RecordsChange, Alive;
    if steps == [] {
      NothingYet(w);
      StackedIsSafeFrom(w, cap);
    } else {
      var front, last := steps[..|steps| - 1], steps[|steps| - 1];
      OneChangeIff(w, front, cap);
      var u := Run(w, front, cap);
      TidyStep(u, last, cap);
      if AllClean(w, front, cap) {
        if Clean(u, last, cap) {
          StackedStep(u, last, cap);
          StackedIsSafeFrom(Next(u, last, cap), cap);
        } else {
          var j :| 0 <= j < |u.db.plans| && Alive(u, j);
          UncleanBreaks(u, last, cap, j);
        }
      }
    }
  }

  lemma NothingYet(w: World)
    requires Initial(w)
    ensures Tidy(w) && Stacked(w)
  {}

  // --- concrete runs -------------------------------------------------------

  lemma ThenByHabit(before: seq<Step>, w: World, step: Step) returns (steps: seq<Step>, v: World)
    requires Run(IDLE, before, 1) == w && AllHabits(IDLE, before, 1) && Habit(w, step)
    ensures steps == before + [step] && v == Run(IDLE, steps, 1) == Next(w, step, 1) && AllHabits(IDLE, steps, 1)
  {
    steps, v := Then(IDLE, before, w, step, 1);
    assert steps[..|before|] == before;
  }

  /** Nothing is moving, and turn "a" has a change of the first epoch with this status. */
  ghost predicate Resting(w: World, status: Status) {
    && w.execs == map[] && w.inflight == 0 && w.planners == map[]
    && |w.db.plans| == 1 && w.db.plans[0].turnId == "a"
    && w.db.plans[0].action.Change? && w.db.plans[0].epoch == 0
    && w.db.plans[0].status == status && w.db.plans[0].reconciled.None?
    && w.db.session.epoch == 0 && !w.db.session.lineageUnknown && !w.db.session.compactionUnknown
  }

  lemma FirstPlan()
    ensures var w := Next(IDLE, PlanBegins(0, "a"), 1);
            w.planners == map[0 := Planner("a", START)] && Resting(Next(w, RECORDS, 1), Planned)
  {
    hide Fail, Accept, Finish, Begin, Reconcile;
    var w := Next(IDLE, PlanBegins(0, "a"), 1);
    assert w == IDLE.(planners := map[0 := Planner("a", START)]);
    assert Next(w, RECORDS, 1).planners == map[];
  }

  lemma FirstRefusal(w: World)
    requires Resting(w, Planned)
    ensures Resting(Next(Next(w, ExecBegins(0, Some(0), false, true), 1), Answers(0, false, None), 1), Rejected)
  {
    hide Accept, Finish, BeginPlan, EndPlan, Reconcile;
    var v := Next(w, ExecBegins(0, Some(0), false, true), 1);
    assert v.execs == map[0 := Exec(Some(0), false, false, w.db.session)];
    assert Next(v, Answers(0, false, None), 1).execs == map[];
  }

  /** The first plan has been written down and refused once. */
  lemma {:induction false} RefusedOnce() returns (steps: seq<Step>, w: World)
    ensures w == Run(IDLE, steps, 1) && AllHabits(IDLE, steps, 1) && Resting(w, Rejected)
  {
    hide Run, AllHabits, Next;
    AtStart();
    NoStep(IDLE, 1);
    FirstPlan();
    steps, w := ThenByHabit([], IDLE, PlanBegins(0, "a"));
    steps, w := ThenByHabit(steps, w, RECORDS);
    FirstRefusal(w);
    steps, w := ThenByHabit(steps, w, ExecBegins(0, Some(0), false, true));
    steps, w := ThenByHabit(steps, w, Answers(0, false, None));
  }

  /** Plan "a" was refused and is on its way again, while turn "b" is being classified. */
  ghost predicate Retried(w: World) {
    && w.planners == map[0 := Planner("b", w.db.session)]
    && w.execs == map[1 := Exec(Some(0), false, false, w.db.session)]
    && |w.db.plans| == 1 && w.db.plans[0].turnId == "a"
    && w.db.plans[0].action.Change? && w.db.plans[0].epoch == 0
    && w.db.plans[0].status == Rejected && w.db.plans[0].reconciled.None? && w.db.session.epoch == 0
  }

  lemma SecondTry(w: World)
    requires Resting(w, Rejected)
    ensures var v := Next(w, PlanBegins(0, "b"), 1);
            |v.db.plans| == 1 && Retried(Next(v, ExecBegins(1, Some(0), false, true), 1))
  {
    hide Fail, Accept, Finish, EndPlan, Reconcile;
    assert !Holds(w.db.plans, "b");
    var v := Next(w, PlanBegins(0, "b"), 1);
    assert v == w.(planners := map[0 := Planner("b", w.db.session)]);
  }

  lemma {:induction false} RetriedMeanwhile() returns (steps: seq<Step>, w: World)
    ensures w == Run(IDLE, steps, 1) && AllHabits(IDLE, steps, 1) && Retried(w)
  {
    hide Run, AllHabits, Next;
    steps, w := RefusedOnce();
    SecondTry(w);
    steps, w := ThenByHabit(steps, w, PlanBegins(0, "b"));
    steps, w := ThenByHabit(steps, w, ExecBegins(1, Some(0), false, true));
  }

  const RECORDS: Step := PlanEnds(0, Raise("low", "high"), Live)

  const ACCEPTS: Step := Answers(1, true, Some(3))

  lemma RecordBeside(w: World)
    requires 0 in w.planners && w.planners[0].turnId == "b" && w.planners[0].seen.epoch == w.db.session.epoch == 0
    requires |w.db.plans| == 1 && w.db.plans[0].turnId == "a" && w.db.plans[0].reconciled.None?
    ensures var v := Next(w, RECORDS, 1);
            |v.db.plans| == 2 && v.db.plans[0] == w.db.plans[0] && v.execs == w.execs &&
            v.db.session.epoch == 0 && v.db.session.life == w.db.session.life && OpenNow(v.db, 1)
  {
    hide Fail, Accept, Finish, Begin, BeginPlan, Reconcile;
    assert !Holds(w.db.plans, "b");
  }

  lemma AcceptBeside(w: World)
    requires 1 in w.execs && w.execs[1].pending == Some(0) && !w.execs[1].maintenance && !w.execs[1].streaming
    requires |w.db.plans| > 0 && w.db.plans[0].action.Change? && w.db.plans[0].status == Rejected
    requires w.db.plans[0].epoch == w.db.session.epoch == 0
    ensures var v := Next(w, ACCEPTS, 1);
            && |v.db.plans| == |w.db.plans| && v.db.session.epoch == 0 && v.planners == w.planners
            && OpenNow(v.db, 0) && v.db.plans[0].turnId == w.db.plans[0].turnId
            && v.db.plans[0].reconciled == w.db.plans[0].reconciled
            && forall k | 1 <= k < |w.db.plans| :: v.db.plans[k] == w.db.plans[k]
  {
    hide Fail, Finish, Begin, BeginPlan, EndPlan, Reconcile;
  }

  lemma AcceptThenRecord(w: World)
    requires Retried(w)
    ensures !AtMostOne(Next(Next(w, ACCEPTS, 1), RECORDS, 1))
  {
    hide Next;
    AcceptBeside(w);
    var v := Next(w, ACCEPTS, 1);
    RecordBeside(v);
    SameRowOpen(v.db, Next(v, RECORDS, 1).db, 0);
    NewestDecides(Next(v, RECORDS, 1), 1);
  }

  lemma RecordThenAccept(w: World)
    requires Retried(w)
    ensures AtMostOne(Next(w, RECORDS, 1)) && !AtMostOne(Next(Next(w, RECORDS, 1), ACCEPTS, 1))
  {
    hide Next;
    RecordBeside(w);
    var v := Next(w, RECORDS, 1);
    NewestDecides(v, 1);
    AcceptBeside(v);
    SameRowOpen(v.db, Next(v, ACCEPTS, 1).db, 1);
    NewestDecides(Next(v, ACCEPTS, 1), 1);
  }

  /** The retry is accepted first and the next change recorded after it: two changes are open at the
      recording. */
  lemma {:induction false} OverlapLeavesTwoOpen() returns (steps: seq<Step>)
    ensures Initial(IDLE) && AllHabits(IDLE, steps, 1) && !AtMostOne(Run(IDLE, steps, 1))
  {
    hide Run, AllHabits, Next, AtMostOne, Retried;
    AtStart();
    var w;
    steps, w := RetriedMeanwhile();
    AcceptThenRecord(w);
    steps, w := ThenByHabit(steps, w, ACCEPTS);
    steps, w := ThenByHabit(steps, w, RECORDS);
  }

  /** Or the next change is recorded first, while nothing is open, and the retry accepted after it: two
      changes are open at the acceptance. */
  lemma {:induction false} LateAcceptanceLeavesTwoOpen() returns (before: seq<Step>, steps: seq<Step>)
    ensures Initial(IDLE) && AllHabits(IDLE, steps, 1) && steps == before + [ACCEPTS]
    ensures AtMostOne(Run(IDLE, before, 1)) && !AtMostOne(Run(IDLE, steps, 1))
  {
    hide Run, AllHabits, Next, AtMostOne, Retried;
    AtStart();
    var w;
    before, w := RetriedMeanwhile();
    RecordThenAccept(w);
    before, w := ThenByHabit(before, w, RECORDS);
    steps, w := ThenByHabit(before, w, ACCEPTS);
  }
}
