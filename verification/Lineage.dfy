/** When a change is written down although the lineage of an earlier reply or the last compaction is unknown. */
module Lineage {
  import opened Prelude
  import opened EffortPolicy
  import opened Ledger
  import opened Sessions
  import opened Protocol
  import opened ProtocolLimits
  import opened OneChange

  // --- what makes the two unknown, and what clears them again ----------------

  /** The state a run is in after its first `n` steps. */
  function At(w: World, steps: seq<Step>, cap: nat, n: nat): World
    requires n <= |steps|
  {
    Run(w, steps[..n], cap)
  }

  /** A compaction that ends without a clean completion. */
  predicate UnsettledEnd(w: World, step: Step) {
    && step.StreamEnds? && Streaming(w, step.e) && w.execs[step.e].maintenance
    && !(step.seen.Completed() && step.clean)
  }

  /** A reply that ends unreadable, or is such a compaction. */
  predicate UnreadableEnd(w: World, step: Step) {
    (step.StreamEnds? && Streaming(w, step.e) && step.seen.parseFailed) || UnsettledEnd(w, step)
  }

  /** A reconciliation that the store accepts. */
  predicate Reconciling(w: World, step: Step) {
    step.Reconciles? && step.i < |w.db.plans| && w.db.plans[step.i].Reconcilable()
  }

  /** The acceptance of a compaction. */
  predicate Compacting(w: World, step: Step) {
    step.Answers? && step.ok && Sending(w, step.e) && w.execs[step.e].maintenance
  }

  lemma ToldFlags(db: Db, pending: Option<nat>, event: Event, seen: Option<Observation>)
    ensures var after := Tell(db, pending, event, seen).session;
            && after.lineageUnknown == db.session.lineageUnknown
            && after.compactionUnknown == db.session.compactionUnknown
            && after.epoch == db.session.epoch
  {}

  lemma AcceptedFlags(db: Db, x: Exec, anchor: Option<nat>)
    ensures var after := OnAccepted(db, x, anchor).session;
            && after.lineageUnknown == db.session.lineageUnknown
            && after.compactionUnknown == (db.session.compactionUnknown && !x.maintenance)
            && after.epoch == db.session.epoch + (if x.maintenance then 1 else 0)
  {
    hide Tell;
    ToldFlags(Activate(db, x.seen), x.pending, WasAccepted, None);
  }

  lemma FinishedFlags(db: Db, x: Exec, clean: bool, seen: Observation)
    ensures var after := OnFinished(db, x, clean, seen).session;
            var lost := x.maintenance && !(seen.Completed() && clean);
            && after.lineageUnknown == (db.session.lineageUnknown || seen.parseFailed || lost)
            && after.compactionUnknown == (db.session.compactionUnknown || lost)
            && after.epoch == db.session.epoch
  {
    hide Tell;
    var event := if seen.Completed() && clean then WasCompleted else WentUnknown;
    ToldFlags(Observe(db, seen), x.pending, event, Some(seen));
  }

  lemma SettledFlags(db: Db, i: nat, outcome: Outcome)
    requires i < |db.plans|
    ensures var after := Settle(db, i, outcome).session;
            && after.lineageUnknown == (db.session.lineageUnknown && !db.plans[i].Reconcilable())
            && after.compactionUnknown == db.session.compactionUnknown
            && after.epoch == db.session.epoch
  {}

  lemma RecordedFlags(db: Db, seen: Session, turnId: string, p: PlanFields, mode: Mode)
    ensures var after := Record(db, seen, turnId, p, mode).session;
            && after.lineageUnknown == db.session.lineageUnknown
            && after.compactionUnknown == db.session.compactionUnknown
            && after.epoch == db.session.epoch
  {}

  /** One step: only an unreadable end loses the lineage, and only a reconciliation finds it again; only an
      unsettled compaction loses the compaction state, and only the next accepted one finds it again. */
  lemma {:induction false} FlagsStep(w: World, step: Step, cap: nat)
    ensures var v := Next(w, step, cap).db.session;
            && v.lineageUnknown ==
               (UnreadableEnd(w, step) || (w.db.session.lineageUnknown && !Reconciling(w, step)))
            && v.compactionUnknown ==
               (UnsettledEnd(w, step) || (w.db.session.compactionUnknown && !Compacting(w, step)))
            && v.epoch == w.db.session.epoch + (if Compacting(w, step) then 1 else 0)
  {
    hide Tell, OnAccepted, OnFinished, Settle, Record, MayPlan;
    match step
    case SendFails(e, refused) =>
      if Sending(w, e) {
        ToldFlags(w.db, w.execs[e].pending, if refused then WasRejected else WentUnknown, None);
      }
    case SendAborts(e) =>
      if Sending(w, e) {
        ToldFlags(w.db, w.execs[e].pending, WentUnknown, None);
      }
    case Answers(e, ok, anchor) =>
      if Sending(w, e) {
        ToldFlags(w.db, w.execs[e].pending, WasRejected, None);
        AcceptedFlags(w.db, w.execs[e], anchor);
      }
    case StreamEnds(e, clean, seen) =>
      if Streaming(w, e) {
        FinishedFlags(w.db, w.execs[e], clean, seen);
      }
    case Reconciles(i, outcome) =>
      if i < |w.db.plans| {
        SettledFlags(w.db, i, outcome);
      }
    case PlanEnds(p, plan, mode) =>
      if p in w.planners {
        RecordedFlags(w.db, w.planners[p].seen, w.planners[p].turnId, plan, mode);
      }
    case _ =>
  }

  lemma AtStep(w: World, steps: seq<Step>, cap: nat, n: nat)
    requires n < |steps|
    ensures At(w, steps, cap, n + 1) == Next(At(w, steps, cap, n), steps[n], cap)
  {
    hide Next;
    assert steps[..n + 1][..n] == steps[..n];
  }

  // --- since a plan request began ---------------------------------------------

  /** An unreadable end since step `b` that no reconciliation has followed by step `n`. */
  ghost predicate LineageLost(w: World, steps: seq<Step>, cap: nat, b: nat, n: nat)
    requires b <= n <= |steps|
  {
    exists j | b <= j < n ::
      UnreadableEnd(At(w, steps, cap, j), steps[j]) &&
      forall k | j < k < n :: !Reconciling(At(w, steps, cap, k), steps[k])
  }

  /** An unsettled compaction since step `b` that no accepted one has followed by step `n`. */
  ghost predicate CompactionLost(w: World, steps: seq<Step>, cap: nat, b: nat, n: nat)
    requires b <= n <= |steps|
  {
    exists j | b <= j < n ::
      UnsettledEnd(At(w, steps, cap, j), steps[j]) &&
      forall k | j < k < n :: !Compacting(At(w, steps, cap, k), steps[k])
  }

  lemma {:induction false} LostStep(w: World, steps: seq<Step>, cap: nat, b: nat, n: nat)
    requires b <= n < |steps|
    ensures LineageLost(w, steps, cap, b, n + 1) <==>
              UnreadableEnd(At(w, steps, cap, n), steps[n]) ||
              (LineageLost(w, steps, cap, b, n) && !Reconciling(At(w, steps, cap, n), steps[n]))
    ensures CompactionLost(w, steps, cap, b, n + 1) <==>
              UnsettledEnd(At(w, steps, cap, n), steps[n]) ||
              (CompactionLost(w, steps, cap, b, n) && !Compacting(At(w, steps, cap, n), steps[n]))
  {
    hide At, UnreadableEnd, UnsettledEnd, Reconciling, Compacting;
    if LineageLost(w, steps, cap, b, n) && !Reconciling(At(w, steps, cap, n), steps[n]) {
      var j :| b <= j < n && UnreadableEnd(At(w, steps, cap, j), steps[j]) &&
               forall k | j < k < n :: !Reconciling(At(w, steps, cap, k), steps[k]);
      assert forall k | j < k < n + 1 :: !Reconciling(At(w, steps, cap, k), steps[k]);
    }
    if CompactionLost(w, steps, cap, b, n) && !Compacting(At(w, steps, cap, n), steps[n]) {
      var j :| b <= j < n && UnsettledEnd(At(w, steps, cap, j), steps[j]) &&
               forall k | j < k < n :: !Compacting(At(w, steps, cap, k), steps[k]);
      assert forall k | j < k < n + 1 :: !Compacting(At(w, steps, cap, k), steps[k]);
    }
  }

  /** From a state that knows both, the flags say exactly what was lost since and not found again. */
  lemma {:induction false} UnknownIffLost(w: World, steps: seq<Step>, cap: nat, b: nat, n: nat)
    requires b <= n <= |steps|
    requires var u := At(w, steps, cap, b).db.session; !u.lineageUnknown && !u.compactionUnknown
    ensures At(w, steps, cap, n).db.session.lineageUnknown <==> LineageLost(w, steps, cap, b, n)
    ensures At(w, steps, cap, n).db.session.compactionUnknown <==> CompactionLost(w, steps, cap, b, n)
    decreases n
  {
    if b == n {
    } else {
      hide At, LineageLost, CompactionLost, UnreadableEnd, UnsettledEnd, Reconciling, Compacting, Next;
      UnknownIffLost(w, steps, cap, b, n - 1);
      AtStep(w, steps, cap, n - 1);
      FlagsStep(At(w, steps, cap, n - 1), steps[n - 1], cap);
      LostStep(w, steps, cap, b, n - 1);
    }
  }

  /** The plan request that step `n` ends was begun by step `b`. */
  ghost predicate BeganAt(w: World, steps: seq<Step>, cap: nat, b: nat, n: nat)
    requires n < |steps|
  {
    && steps[n].PlanEnds? && b < n && steps[b].PlanBegins? && steps[b].p == steps[n].p
    && steps[n].p !in At(w, steps, cap, b).planners
    && forall k | b < k <= n :: steps[n].p in At(w, steps, cap, k).planners
  }

  /** A plan request begins where both are known. */
  lemma BeginningKnows(w: World, steps: seq<Step>, cap: nat, b: nat, p: nat)
    requires b < |steps| && p !in At(w, steps, cap, b).planners && p in At(w, steps, cap, b + 1).planners
    ensures var u, v := At(w, steps, cap, b), At(w, steps, cap, b + 1);
            && steps[b].PlanBegins? && steps[b].p == p && u.inflight == 0
            && !u.db.session.lineageUnknown && !u.db.session.compactionUnknown
            && v == u.(planners := u.planners[p := Planner(steps[b].turnId, u.db.session)])
  {
    hide At, Tell, OnAccepted, OnFinished, Settle, Record;
    AtStep(w, steps, cap, b);
  }

  /** Every plan request that is out has a beginning. */
  lemma {:induction false} HasBegun(w: World, steps: seq<Step>, cap: nat, p: nat, n: nat) returns (b: nat)
    requires Initial(w) && n <= |steps| && p in At(w, steps, cap, n).planners
    ensures b < n && p !in At(w, steps, cap, b).planners
    ensures forall k | b < k <= n :: p in At(w, steps, cap, k).planners
    decreases n
  {
    if n == 0 {
      assert false;
    } else {
      hide At;
      if p in At(w, steps, cap, n - 1).planners {
        b := HasBegun(w, steps, cap, p, n - 1);
      } else {
        b := n - 1;
      }
    }
  }

  // --- the theorem --------------------------------------------------------------

  /** This step writes a change into the table. */
  predicate WritesChange(w: World, step: Step, cap: nat) {
    var v := Next(w, step, cap);
    step.PlanEnds? && |w.db.plans| < |v.db.plans| && v.db.plans[|w.db.plans|].action.Change?
  }

  predicate Known(w: World) {
    !w.db.session.lineageUnknown && !w.db.session.compactionUnknown
  }

  /** Every change is written where lineage and compaction state are known. */
  ghost predicate WritesKnowing(w: World, steps: seq<Step>, cap: nat) {
    forall n | 0 <= n < |steps| && WritesChange(At(w, steps, cap, n), steps[n], cap) :: Known(At(w, steps, cap, n))
  }

  /** Whatever was lost while a change was being classified had been found again when it was written. */
  ghost predicate NothingLostMeanwhile(w: World, steps: seq<Step>, cap: nat) {
    forall n, b | 0 <= b < n < |steps| && WritesChange(At(w, steps, cap, n), steps[n], cap) &&
                  BeganAt(w, steps, cap, b, n) ::
      !LineageLost(w, steps, cap, b, n) && !CompactionLost(w, steps, cap, b, n)
  }

  lemma WriterIsOut(w: World, step: Step, cap: nat)
    requires WritesChange(w, step, cap)
    ensures step.PlanEnds? && step.p in w.planners
  {}

  lemma {:induction false} KnownAtIff(w: World, steps: seq<Step>, cap: nat, b: nat, n: nat)
    requires n < |steps| && BeganAt(w, steps, cap, b, n)
    ensures Known(At(w, steps, cap, n)) <==>
              !LineageLost(w, steps, cap, b, n) && !CompactionLost(w, steps, cap, b, n)
  {
    hide At, LineageLost, CompactionLost;
    BeginningKnows(w, steps, cap, b, steps[n].p);
    UnknownIffLost(w, steps, cap, b, n);
  }

  /** Over every run, whatever the client's habits: each change is written with lineage and compaction state
      known exactly when no reply that ended since its plan request began was unreadable without a
      reconciliation after it, and no compaction ended unsettled without an accepted one after it. */
  lemma {:induction false} KnownIff(w: World, steps: seq<Step>, cap: nat)
    requires Initial(w)
    ensures WritesKnowing(w, steps, cap) <==> NothingLostMeanwhile(w, steps, cap)
  {
    hide At, LineageLost, CompactionLost, WritesChange, Known;
    forall n | 0 <= n < |steps| && WritesChange(At(w, steps, cap, n), steps[n], cap)
      ensures exists b | 0 <= b < n :: BeganAt(w, steps, cap, b, n)
    {
      WriterIsOut(At(w, steps, cap, n), steps[n], cap);
      var b := HasBegun(w, steps, cap, steps[n].p, n);
      BeginningKnows(w, steps, cap, b, steps[n].p);
      assert BeganAt(w, steps, cap, b, n);
    }
    forall n, b | 0 <= b < n < |steps| && WritesChange(At(w, steps, cap, n), steps[n], cap) &&
                  BeganAt(w, steps, cap, b, n)
      ensures Known(At(w, steps, cap, n)) <==>
                !LineageLost(w, steps, cap, b, n) && !CompactionLost(w, steps, cap, b, n)
    {
      KnownAtIff(w, steps, cap, b, n);
    }
  }

  // --- the compaction state of a change that can still be carried out -----------

  /** While a plan request's epoch is current, nothing that could lose the compaction state has come in. */
  ghost predicate Current(w: World, p: nat)
    requires p in w.planners
  {
    && w.planners[p].seen.epoch <= w.db.session.epoch
    && (w.planners[p].seen.epoch == w.db.session.epoch ==>
          && !w.db.session.compactionUnknown
          && forall e | e in w.execs && w.execs[e].maintenance :: !w.execs[e].streaming)
  }

  lemma {:induction false} CurrentStep(w: World, step: Step, cap: nat, p: nat)
    requires Balanced(w, cap) && p in Next(w, step, cap).planners && (p in w.planners ==> Current(w, p))
    ensures Current(Next(w, step, cap), p)
  {
    hide Tell, OnAccepted, OnFinished, Settle, Record, OpenChange;
    FlagsStep(w, step, cap);
    assert w.inflight == 0 ==> w.execs == map[];
  }

  lemma {:induction false} AlwaysCurrent(w: World, steps: seq<Step>, cap: nat, p: nat)
    requires Initial(w) && p in Run(w, steps, cap).planners
    ensures Current(Run(w, steps, cap), p)
  {
    hide Next, Current;
    if steps == [] {
      assert false;
    } else {
      var front, last := steps[..|steps| - 1], steps[|steps| - 1];
      if p in Run(w, front, cap).planners {
        AlwaysCurrent(w, front, cap, p);
      }
      ClaimsConserved(w, front, cap);
      CurrentStep(Run(w, front, cap), last, cap, p);
    }
  }

  /** A change of the current epoch is never written while the compaction state is unknown: a compaction that
      came in during the classification has already moved the epoch on. */
  lemma {:induction false} CurrentChangeKnowsCompaction(w: World, steps: seq<Step>, cap: nat, step: Step)
    requires Initial(w) && RecordsChange(Run(w, steps, cap), step, cap)
    ensures !Run(w, steps, cap).db.session.compactionUnknown
  {
    hide Run;
    var u := Run(w, steps, cap);
    RecordsFor(u, step, cap);
    AlwaysCurrent(w, steps, cap, step.p);
  }

  lemma RecordsFor(w: World, step: Step, cap: nat)
    requires RecordsChange(w, step, cap)
    ensures step.PlanEnds? && step.p in w.planners && w.planners[step.p].seen.epoch >= w.db.session.epoch
  {}

  // --- concrete runs under the habits ---------------------------------------------

  /** A reply nobody could read. */
  const GARBLED: Observation := Observation("r", "completed", false, true)

  lemma FirstTurn()
    ensures Next(IDLE, PlanBegins(0, "a"), 1) == IDLE.(planners := map[0 := Planner("a", START)])
  {
    hide Fail, Accept, Finish, Begin, Reconcile, EndPlan;
  }

  /** A request of its own comes in meanwhile, is accepted and ends like this. */
  lemma Meanwhile(maintenance: bool, clean: bool, seen: Observation)
    ensures var w := IDLE.(planners := map[0 := Planner("a", START)]);
            var v := Next(w, ExecBegins(0, None, maintenance, true), 1);
            var u := Next(v, Answers(0, true, None), 1);
            var t := Next(u, StreamEnds(0, clean, seen), 1);
            && t.planners == w.planners && t.db.plans == []
            && t.db.session.epoch == (if maintenance then 1 else 0)
            && t.db.session.lineageUnknown == (seen.parseFailed || (maintenance && !(seen.Completed() && clean)))
            && t.db.session.compactionUnknown == (maintenance && !(seen.Completed() && clean))
  {
    hide Fail, BeginPlan, EndPlan, Reconcile;
  }

  lemma WrittenAnyway(w: World)
    requires w.planners == map[0 := Planner("a", START)] && w.db.plans == []
    ensures var v := Next(w, RECORDS, 1);
            && WritesChange(w, RECORDS, 1) && |v.db.plans| == 1
            && v.db.plans[0].OpenChange() && v.db.plans[0].epoch == 0
            && v.db.session.epoch == w.db.session.epoch
            && v.db.session.lineageUnknown == w.db.session.lineageUnknown
  {
    hide Fail, Accept, Finish, Begin, BeginPlan, Reconcile;
  }

  /** An unreadable reply ends while a turn is being classified, and the change that was asked for is written
      all the same: it is open, of the current epoch, and the lineage is unknown. */
  lemma {:induction false} WrittenWithoutLineage() returns (before: seq<Step>, steps: seq<Step>)
    ensures Initial(IDLE) && AllHabits(IDLE, steps, 1) && steps == before + [RECORDS]
    ensures RecordsChange(Run(IDLE, before, 1), RECORDS, 1)
    ensures Run(IDLE, before, 1).db.session.lineageUnknown && Run(IDLE, steps, 1).db.session.lineageUnknown
  {
    var w, v;
    before, w := Interrupted(false, true, GARBLED);
    hide Run, AllHabits, Next;
    WrittenAnyway(w);
    steps, v := ThenByHabit(before, w, RECORDS);
  }

  /** The same with a compaction that never finishes. Both are unknown, and the change belongs to the epoch
      before. */
  lemma {:induction false} WrittenWithoutCompaction() returns (before: seq<Step>, steps: seq<Step>)
    ensures Initial(IDLE) && AllHabits(IDLE, steps, 1) && steps == before + [RECORDS]
    ensures WritesChange(Run(IDLE, before, 1), RECORDS, 1)
    ensures var u := Run(IDLE, before, 1).db.session;
            u.lineageUnknown && u.compactionUnknown && u.epoch == 1
    ensures var v := Run(IDLE, steps, 1).db;
            |v.plans| == 1 && v.plans[0].action.Change? && v.plans[0].epoch == 0
  {
    var w, v;
    before, w := Interrupted(true, false, LOST);
    hide Run, AllHabits, Next;
    WrittenAnyway(w);
    steps, v := ThenByHabit(before, w, RECORDS);
  }

  lemma {:induction false} Interrupted(maintenance: bool, clean: bool, seen: Observation)
    returns (steps: seq<Step>, w: World)
    ensures Initial(IDLE) && w == Run(IDLE, steps, 1) && AllHabits(IDLE, steps, 1)
    ensures w.planners == map[0 := Planner("a", START)] && w.db.plans == []
    ensures w.db.session.epoch == (if maintenance then 1 else 0)
    ensures w.db.session.lineageUnknown == (seen.parseFailed || (maintenance && !(seen.Completed() && clean)))
    ensures w.db.session.compactionUnknown == (maintenance && !(seen.Completed() && clean))
  {
    hide Run, AllHabits, Next;
    AtStart();
    NoStep(IDLE, 1);
    FirstTurn();
    Meanwhile(maintenance, clean, seen);
    steps, w := ThenByHabit([], IDLE, PlanBegins(0, "a"));
    steps, w := ThenByHabit(steps, w, ExecBegins(0, None, maintenance, true));
    steps, w := ThenByHabit(steps, w, Answers(0, true, None));
    steps, w := ThenByHabit(steps, w, StreamEnds(0, clean, seen));
  }
}
