/** One change at a time, reconciliation holes, and the runs that show where each promise ends. */
module ProtocolLimits {
  import opened Prelude
  import opened EffortPolicy
  import opened Ledger
  import opened Sessions
  import opened Protocol

  // --- one change at a time ------------------------------------------------

  predicate OpenNow(db: Db, i: nat)
    requires i < |db.plans|
  {
    db.plans[i].OpenChange() && db.plans[i].epoch >= db.session.epoch
  }

  predicate AtMostOne(w: World) {
    forall i, j | 0 <= i < j < |w.db.plans| :: !(OpenNow(w.db, i) && OpenNow(w.db, j))
  }

  /** Turn-boundary discipline: plan requests overlap nothing else, and only the newest plan
      is ever sent or sent again. */
  predicate Orderly(w: World, step: Step) {
    && (step.PlanBegins? ==> w.planners == map[])
    && (step.ExecBegins? ==> w.planners == map[] && (step.named.Some? ==> step.named.value == |w.db.plans| - 1))
  }

  predicate AllOrderly(w: World, steps: seq<Step>, cap: nat) {
    steps == [] || (AllOrderly(w, steps[..|steps| - 1], cap) &&
                    Orderly(Run(w, steps[..|steps| - 1], cap), steps[|steps| - 1]))
  }

  /** A plan request found nothing moving, and nothing has moved since. */
  ghost predicate Undisturbed(w: World) {
    w.planners != map[] ==>
      && w.execs == map[]
      && !w.db.session.lineageUnknown && !w.db.session.compactionUnknown
      && (forall i | 0 <= i < |w.db.plans| :: !OpenNow(w.db, i))
      && (forall p, q | p in w.planners && q in w.planners :: p == q)
  }

  ghost predicate Serial(w: World) {
    && (forall i | 0 <= i < |w.db.plans| - 1 :: !OpenNow(w.db, i))
    && (forall e | e in w.execs && w.execs[e].pending.Some? :: w.execs[e].pending.value == |w.db.plans| - 1)
    && Undisturbed(w)
  }

  /** Only row `i` changed, and the epoch did not go back. */
  ghost predicate OneRow(before: Db, after: Db, i: nat) {
    && |after.plans| == |before.plans|
    && before.session.epoch <= after.session.epoch
    && forall k | 0 <= k < |before.plans| && k != i :: after.plans[k] == before.plans[k]
  }

  lemma SerialOneRow(w: World, v: World, i: nat)
    requires Serial(w) && w.planners == v.planners == map[]
    requires i == |w.db.plans| - 1 && OneRow(w.db, v.db, i)
    requires forall e | e in v.execs :: e in w.execs && v.execs[e].pending == w.execs[e].pending
    ensures Serial(v)
  {
    forall k | 0 <= k < |v.db.plans| - 1 ensures !OpenNow(v.db, k) { assert !OpenNow(w.db, k); }
  }

  lemma TellOneRow(db: Db, pending: Option<nat>, event: Event, seen: Option<Observation>, i: nat)
    requires pending.Some? ==> pending.value == i
    ensures OneRow(db, Tell(db, pending, event, seen), i)
  {
  }

  lemma FailSerial(w: World, e: nat, event: Event)
    requires Serial(w)
    ensures Serial(Fail(w, e, event))
  {
    if Sending(w, e) && w.db.plans != [] {
      TellOneRow(w.db, w.execs[e].pending, event, None, |w.db.plans| - 1);
      SerialOneRow(w, Fail(w, e, event), |w.db.plans| - 1);
    }
  }

  lemma AcceptSerial(w: World, e: nat, anchor: Option<nat>)
    requires Serial(w)
    ensures Serial(Accept(w, e, anchor))
  {
    if Sending(w, e) && w.db.plans != [] {
      var x := w.execs[e];
      TellOneRow(Activate(w.db, x.seen), x.pending, WasAccepted, None, |w.db.plans| - 1);
      SerialOneRow(w, Accept(w, e, anchor), |w.db.plans| - 1);
    }
  }

  lemma FinishSerial(w: World, e: nat, clean: bool, seen: Observation)
    requires Serial(w)
    ensures Serial(Finish(w, e, clean, seen))
  {
    if Streaming(w, e) && w.db.plans != [] {
      var x := w.execs[e];
      TellOneRow(Observe(w.db, seen), x.pending, if seen.Completed() && clean then WasCompleted else WentUnknown,
                 Some(seen), |w.db.plans| - 1);
      SerialOneRow(w, Finish(w, e, clean, seen), |w.db.plans| - 1);
    }
  }

  lemma ReconcileSerial(w: World, i: nat, outcome: Outcome)
    requires Serial(w)
    ensures Serial(Reconcile(w, i, outcome))
  {
    var v := Reconcile(w, i, outcome);
    if i < |w.db.plans| {
      forall k | 0 <= k < |v.db.plans| && !OpenNow(w.db, k) ensures !OpenNow(v.db, k) {}
    }
  }

  lemma EndPlanSerial(w: World, p: nat, plan: PlanFields, mode: Mode)
    requires Serial(w)
    ensures Serial(EndPlan(w, p, plan, mode))
  {
    var v := EndPlan(w, p, plan, mode);
    if p in w.planners {
      forall k | 0 <= k < |w.db.plans| ensures !OpenNow(v.db, k) { assert !OpenNow(w.db, k); }
    }
  }

  /** The plan query's window always shows the one row that can be open. */
  lemma NewestInWindow(w: World)
    requires OpenChange(PlansThisEpoch(w.db.plans, w.db.session.epoch)).None? && w.db.plans != []
    ensures !OpenNow(w.db, |w.db.plans| - 1)
  {
    var last := w.db.plans[|w.db.plans| - 1];
    assert Window(w.db.plans)[|Window(w.db.plans)| - 1] == last;
  }

  lemma BeginPlanSerial(w: World, p: nat, turnId: string, cap: nat)
    requires Serial(w) && Balanced(w, cap) && w.planners == map[]
    ensures Serial(BeginPlan(w, p, turnId))
  {
    if MayPlan(w, turnId) && w.db.plans != [] {
      NewestInWindow(w);
    }
    assert w.inflight == 0 ==> w.execs == map[];
  }

  lemma BeginSerial(w: World, e: nat, named: Option<nat>, maintenance: bool, cap: nat)
    requires Serial(w) && w.planners == map[]
    requires named.Some? ==> named.value == |w.db.plans| - 1
    ensures Serial(Begin(w, e, named, maintenance, cap))
  {
  }

  lemma SerialStep(w: World, step: Step, cap: nat)
    requires Serial(w) && Balanced(w, cap) && Orderly(w, step)
    ensures Serial(Next(w, step, cap))
  {
    hide Fail, Accept, Finish, Reconcile, EndPlan, BeginPlan, Begin;
    match step
    case PlanEnds(p, plan, mode) => EndPlanSerial(w, p, plan, mode);
    case SendFails(e, refused) => FailSerial(w, e, if refused then WasRejected else WentUnknown);
    case SendAborts(e) => FailSerial(w, e, WentUnknown);
    case Answers(e, ok, anchor) =>
      AcceptSerial(w, e, anchor);
      FailSerial(w, e, WasRejected);
    case StreamEnds(e, clean, seen) => FinishSerial(w, e, clean, seen);
    case Reconciles(i, outcome) => ReconcileSerial(w, i, outcome);
    case PlanBegins(p, turnId) => BeginPlanSerial(w, p, turnId, cap);
    case ExecBegins(e, named, maintenance, _) => BeginSerial(w, e, named, maintenance, cap);
    case PlanFails(p) => assert (w.planners - {p}).Keys <= w.planners.Keys;
  }

  lemma {:induction false} SerialAlways(w: World, steps: seq<Step>, cap: nat)
    requires Initial(w) && AllOrderly(w, steps, cap)
    ensures Serial(Run(w, steps, cap)) && Balanced(Run(w, steps, cap), cap)
  {
    hide Next;
    if steps != [] {
      var earlier := steps[..|steps| - 1];
      SerialAlways(w, earlier, cap);
      ClaimsStep(Run(w, earlier, cap), steps[|steps| - 1], cap);
      SerialStep(Run(w, earlier, cap), steps[|steps| - 1], cap);
    }
  }

  /** In every state an orderly client can reach, at most one change of the current epoch is
      open, and a change is written down only where the lineage and the last compaction are known. */
  lemma {:induction false} OneChangeAtATime(w: World, steps: seq<Step>, cap: nat)
    requires Initial(w) && AllOrderly(w, steps, cap)
    ensures AtMostOne(Run(w, steps, cap))
    ensures var v := Run(w, steps, cap);
            v.planners != map[] ==> !v.db.session.lineageUnknown && !v.db.session.compactionUnknown
  {
    SerialAlways(w, steps, cap);
  }

  // --- concrete runs -------------------------------------------------------

  const START: Session := Session(Active, 0, "low", "low", "low", "low", false, false, 0)

  const IDLE: World := World(Db(START, []), 0, map[], map[])

  function Raise(from: Effort, to: Effort): PlanFields {
    PlanFields(Change, Some(from), Some(to), Some("low"), Some(to), Up, Some(to), 0, 2, None,
               ["low", "medium", "high"], 0.0)
  }

  lemma AtStart()
    ensures Run(IDLE, [], 1) == IDLE && AllQuiet(IDLE, [], 1) && Initial(IDLE)
  {}

  /** One more step of a concrete run. */
  lemma Then(w0: World, before: seq<Step>, w: World, step: Step, cap: nat) returns (steps: seq<Step>, v: World)
    requires Run(w0, before, cap) == w
    ensures steps == before + [step] && v == Run(w0, steps, cap) == Next(w, step, cap)
  {
    steps, v := before + [step], Next(w, step, cap);
    assert steps[..|before|] == before;
  }

  // --- a reply that ends after its plan was reconciled by hand -------------

  lemma ThenQuietly(before: seq<Step>, w: World, step: Step) returns (steps: seq<Step>, v: World)
    requires Run(IDLE, before, 1) == w && AllQuiet(IDLE, before, 1) && Quiet(w, step)
    ensures steps == before + [step] && v == Run(IDLE, steps, 1) == Next(w, step, 1) && AllQuiet(IDLE, steps, 1)
  {
    steps, v := Then(IDLE, before, w, step, 1);
    assert steps[..|before|] == before;
  }

  const DONE: Observation := Observation("r", "completed", false, false)

  /** A first change is sent and nothing comes back. */
  lemma {:induction false} WentQuiet() returns (steps: seq<Step>, w: World)
    ensures w == Run(IDLE, steps, 1) && AllQuiet(IDLE, steps, 1)
    ensures w.execs == map[] && w.inflight == 0 && w.planners == map[] && |w.db.plans| == 1
    ensures w.db.plans[0].turnId == "a" && w.db.plans[0].action.Change? && w.db.plans[0].toEffort == Some("high")
    ensures w.db.plans[0].status == OutcomeUnknown && w.db.plans[0].epoch == 0
    ensures w.db.plans[0].reconciled.None? && w.db.plans[0].anchor.None?
    ensures w.db.session.epoch == 0 && !w.db.session.lineageUnknown && !w.db.session.compactionUnknown
  {
    hide Run, AllQuiet;
    AtStart();
    steps, w := ThenQuietly([], IDLE, PlanBegins(0, "a"));
    assert w == IDLE.(planners := map[0 := Planner("a", START)]);
    steps, w := ThenQuietly(steps, w, PlanEnds(0, Raise("low", "high"), Live));
    steps, w := ThenQuietly(steps, w, ExecBegins(0, Some(0), false, true));
    assert w.execs == map[0 := Exec(Some(0), false, false, w.db.session)];
    steps, w := ThenQuietly(steps, w, SendAborts(0));
    assert w.execs == map[];
  }

  /** Then the provider folds the history up. */
  lemma {:induction false} QuietThenFolded() returns (steps: seq<Step>, w: World)
    ensures w == Run(IDLE, steps, 1) && AllQuiet(IDLE, steps, 1)
    ensures w.execs == map[] && w.inflight == 0 && w.planners == map[] && |w.db.plans| == 1
    ensures w.db.plans[0].turnId == "a" && w.db.plans[0].action.Change? && w.db.plans[0].toEffort == Some("high")
    ensures w.db.plans[0].status == OutcomeUnknown && w.db.plans[0].epoch == 0
    ensures w.db.session.epoch == 1 && !w.db.session.lineageUnknown && !w.db.session.compactionUnknown
  {
    hide Run, AllQuiet;
    steps, w := WentQuiet();
    steps, w := ThenQuietly(steps, w, ExecBegins(0, None, true, true));
    assert w.execs == map[0 := Exec(None, true, false, w.db.session)];
    steps, w := ThenQuietly(steps, w, Answers(0, true, None));
    steps, w := ThenQuietly(steps, w, StreamEnds(0, true, DONE));
    assert w.execs == map[];
  }

  /** A second change is planned. */
  lemma {:induction false} SecondPlanned() returns (steps: seq<Step>, w: World)
    ensures w == Run(IDLE, steps, 1) && AllQuiet(IDLE, steps, 1)
    ensures w.execs == map[] && w.inflight == 0 && |w.db.plans| == 2
    ensures w.db.plans[0].status == OutcomeUnknown && w.db.plans[0].action.Change?
    ensures w.db.plans[0].toEffort == Some("high")
    ensures w.db.plans[1].status == Planned && w.db.plans[1].action.Change? && w.db.plans[1].toEffort == Some("medium")
  {
    hide Run, AllQuiet;
    steps, w := QuietThenFolded();
    assert w.db.plans == [w.db.plans[0]];
    steps, w := ThenQuietly(steps, w, PlanBegins(0, "b"));
    assert w.planners == map[0 := Planner("b", w.db.session)] by { assert !Holds(w.db.plans, "b"); }
    steps, w := ThenQuietly(steps, w, PlanEnds(0, Raise("low", "medium"), Live));
  }

  /** It is sent and accepted, and its reply still streams. */
  lemma SecondStreams() returns (steps: seq<Step>, w: World)
    ensures w == Run(IDLE, steps, 1) && AllQuiet(IDLE, steps, 1)
    ensures Streaming(w, 0) && w.execs[0].pending == Some(1) && |w.db.plans| == 2
    ensures w.db.plans[0].status == OutcomeUnknown && w.db.plans[0].action.Change?
    ensures w.db.plans[0].toEffort == Some("high")
    ensures w.db.plans[1].Reconcilable() && w.db.plans[1].action.Change? && w.db.plans[1].toEffort == Some("medium")
  {
    hide Run, AllQuiet;
    steps, w := SecondPlanned();
    steps, w := ThenQuietly(steps, w, ExecBegins(0, Some(1), false, true));
    assert w.execs == map[0 := Exec(Some(1), false, false, w.db.session)];
    steps, w := ThenQuietly(steps, w, Answers(0, true, Some(1)));
  }

  /** Both changes are settled by hand. */
  lemma {:induction false} SettledByHand() returns (steps: seq<Step>, w: World)
    ensures w == Run(IDLE, steps, 1) && Refines(w.db, "high") && History(IDLE, steps, 1) == "high"
    ensures Streaming(w, 0) && w.execs[0].pending == Some(1) && |w.db.plans| == 2 && RowsName(w.db.plans)
    ensures Fits(w.db, w.execs[0])
    ensures w.db.plans[1].status == Confirmed && w.db.plans[1].action.Change?
    ensures w.db.plans[1].toEffort == Some("medium")
  {
    hide Run, AllQuiet, Refines, RowsName, History, Next;
    steps, w := SecondStreams();
    AtStart();
    LedgerRefinement(IDLE, steps);
    steps, w := ThenByHand(steps, w, 1);
    steps, w := ThenByHand(steps, w, 0);
  }

  lemma {:induction false} ThenByHand(before: seq<Step>, w: World, i: nat) returns (steps: seq<Step>, v: World)
    requires w == Run(IDLE, before, 1) && Refines(w.db, History(IDLE, before, 1)) && RowsName(w.db.plans)
    requires i < |w.db.plans| && w.db.plans[i].Reconcilable() && w.db.plans[i].action.Change?
    ensures steps == before + [Reconciles(i, Applied)]
    ensures v == Run(IDLE, steps, 1) == w.(db := Settle(w.db, i, Applied)) && RowsName(v.db.plans)
    ensures v.db.session.base == w.db.session.base
    ensures History(IDLE, steps, 1) == w.db.plans[i].toEffort.value && Refines(v.db, History(IDLE, steps, 1))
  {
    steps, v := Then(IDLE, before, w, Reconciles(i, Applied), 1);
    SettleRefines(w.db, i, Applied, History(IDLE, before, 1));
    OneRowConfirmed(w.db.plans, i, v.db.plans[i]);
    assert steps[..|before|] == before;
  }

  /** Reconciling a plan while its reply still streams: the reply's end puts the session back
      on that plan's effort after the history has moved on. */
  lemma {:induction false} LateReplyOverwrites() returns (steps: seq<Step>)
    ensures Initial(IDLE) && !Refines(Run(IDLE, steps, 1).db, History(IDLE, steps, 1))
  {
    hide Run;
    var before, w := SettledByHand();
    var after;
    steps, after := Then(IDLE, before, w, StreamEnds(0, true, DONE), 1);
    assert steps[..|before|] == before;
    LateReplyRefinesIff(w, 0, true, DONE, "high");
  }

  // --- reconciliation holes ------------------------------------------------

  /** A row confirmed by hand that nobody saw land. */
  ghost predicate HoleAt(db: Db, h: nat) { h < |db.plans| && db.plans[h].Hole() && db.plans[h].status == Confirmed }

  ghost predicate Same(before: Db, after: Db, h: nat)
    requires h < |before.plans|
  {
    h < |after.plans| && after.plans[h] == before.plans[h]
  }

  /** The row is the same, but for the confirmed effort, which the end of a late reply writes once more. */
  ghost predicate SameHole(before: Db, after: Db, h: nat)
    requires h < |before.plans|
  {
    h < |after.plans| &&
    after.plans[h].(confirmedEffort := before.plans[h].confirmedEffort) == before.plans[h]
  }

  lemma FailLeavesHole(w: World, e: nat, event: Event, h: nat)
    requires Loose(w) && HoleAt(w.db, h)
    ensures Same(w.db, Fail(w, e, event).db, h)
  {}

  lemma AcceptLeavesHole(w: World, e: nat, anchor: Option<nat>, h: nat)
    requires Loose(w) && HoleAt(w.db, h)
    ensures Same(w.db, Accept(w, e, anchor).db, h)
  {}

  lemma FinishLeavesHole(w: World, e: nat, clean: bool, seen: Observation, h: nat)
    requires Loose(w) && HoleAt(w.db, h)
    ensures var after := Finish(w, e, clean, seen).db;
            && SameHole(w.db, after, h) && HoleAt(after, h)
            && (Sound(w) ==> Same(w.db, after, h))
  {}

  /** No execution can give a hole an anchor, and nobody can settle it twice, even where a reply that carried
      it still streams. */
  lemma {:induction false} HoleStays(w: World, step: Step, h: nat)
    requires Loose(w) && HoleAt(w.db, h)
    ensures var after := Next(w, step, 1).db;
            && HoleAt(after, h) && SameHole(w.db, after, h)
            && (Sound(w) ==> Same(w.db, after, h))
  {
    hide MayPlan, Fail, Accept, Finish, Sound, Loose;
    match step
    case SendFails(e, refused) => FailLeavesHole(w, e, if refused then WasRejected else WentUnknown, h);
    case SendAborts(e) => FailLeavesHole(w, e, WentUnknown, h);
    case Answers(e, ok, anchor) =>
      FailLeavesHole(w, e, WasRejected, h);
      AcceptLeavesHole(w, e, anchor, h);
    case StreamEnds(e, clean, seen) => FinishLeavesHole(w, e, clean, seen, h);
    case _ =>
  }

  predicate Agree(db: Db) {
    db.session.effective == db.session.confirmed
  }

  lemma ToldAgrees(db: Db, pending: Option<nat>, event: Event, seen: Option<Observation>)
    requires Agree(db)
    ensures Agree(Tell(db, pending, event, seen))
  {}

  lemma AcceptedAgrees(db: Db, x: Exec, anchor: Option<nat>)
    requires Agree(db)
    ensures Agree(OnAccepted(db, x, anchor))
  {
    hide Tell;
    ToldAgrees(Activate(db, x.seen), x.pending, WasAccepted, None);
  }

  lemma FinishedAgrees(db: Db, x: Exec, clean: bool, seen: Observation)
    requires Agree(db)
    ensures Agree(OnFinished(db, x, clean, seen))
  {
    hide Tell;
    var event := if seen.Completed() && clean then WasCompleted else WentUnknown;
    ToldAgrees(Observe(db, seen), x.pending, event, Some(seen));
  }

  lemma SettledAgrees(db: Db, i: nat, outcome: Outcome)
    requires Agree(db) && i < |db.plans|
    ensures Agree(Settle(db, i, outcome))
  {}

  lemma RecordedAgrees(db: Db, seen: Session, turnId: string, p: PlanFields, mode: Mode)
    requires Agree(db)
    ensures Agree(Record(db, seen, turnId, p, mode))
  {}

  /** Every write of the session's effective effort writes the confirmed one too. */
  lemma {:induction false} AgreeStep(w: World, step: Step, cap: nat)
    requires Agree(w.db)
    ensures Agree(Next(w, step, cap).db)
  {
    hide MayPlan, Tell, OnAccepted, OnFinished, Settle, Record, Agree;
    match step
    case SendFails(e, refused) =>
      if Sending(w, e) {
        ToldAgrees(w.db, w.execs[e].pending, if refused then WasRejected else WentUnknown, None);
      }
    case SendAborts(e) =>
      if Sending(w, e) {
        ToldAgrees(w.db, w.execs[e].pending, WentUnknown, None);
      }
    case Answers(e, ok, anchor) =>
      if Sending(w, e) {
        ToldAgrees(w.db, w.execs[e].pending, WasRejected, None);
        AcceptedAgrees(w.db, w.execs[e], anchor);
      }
    case StreamEnds(e, clean, seen) =>
      if Streaming(w, e) {
        FinishedAgrees(w.db, w.execs[e], clean, seen);
      }
    case Reconciles(i, outcome) =>
      if i < |w.db.plans| {
        SettledAgrees(w.db, i, outcome);
      }
    case PlanEnds(p, plan, mode) =>
      if p in w.planners {
        RecordedAgrees(w.db, w.planners[p].seen, w.planners[p].turnId, plan, mode);
      }
    case _ =>
  }

  /** A hole stays where it is for the rest of the run, whoever reconciles what; with quiet reconciliations its
      row is not touched at all. */
  lemma {:induction false} HoleForever(w: World, steps: seq<Step>, h: nat)
    requires Loose(w) && Balanced(w, 1) && Agree(w.db)
    requires AllNamed(steps) && HoleAt(w.db, h)
    ensures var v := Run(w, steps, 1);
            && Loose(v) && Balanced(v, 1) && Agree(v.db)
            && HoleAt(v.db, h) && SameHole(w.db, v.db, h)
            && (Sound(w) && AllQuiet(w, steps, 1) ==> Sound(v) && Same(w.db, v.db, h))
  {
    hide Next, Sound, Loose, Believed, Harmless, Quiet, Named;
    if steps != [] {
      var earlier, last := steps[..|steps| - 1], steps[|steps| - 1];
      HoleForever(w, earlier, h);
      var u := Run(w, earlier, 1);
      HoleStays(u, last, h);
      AgreeStep(u, last, 1);
      assert Named(last);
      LooseStep(u, last, u.db.session.effective);
      ClaimsStep(u, last, 1);
    }
  }

  /** A hole of this epoch stops the next change exactly while it is among the newest plans a
      plan query returns; once that many have been recorded after it, it is not seen. */
  lemma HoleStopsChangeIff(db: Db, seen: Session, turnId: string, p: PlanFields, h: nat)
    requires h < |db.plans| && db.plans[h].Hole() && db.plans[h].epoch >= seen.epoch
    requires forall k | h < k < |db.plans| :: !db.plans[k].Hole()
    requires p.action.Change? && !Holds(db.plans, turnId)
    ensures var after := Record(db, seen, turnId, p, Live).plans;
            && |after| == |db.plans| + 1
            && (after[|db.plans|].action.Change? <==> h + PLANS_WINDOW < |db.plans|)
  {
    var window := Window(db.plans);
    if h + PLANS_WINDOW < |db.plans| {
      forall row | row in window ensures !row.Hole() {
        var k :| 0 <= k < |window| && window[k] == row;
        assert row == db.plans[|db.plans| - PLANS_WINDOW + k];
      }
    } else {
      assert db.plans[h] in window by {
        assert db.plans[h] == window[h - (|db.plans| - |window|)];
      }
    }
  }

  const HOLD: PlanFields := PlanFields(Keep, Some("high"), Some("high"), Some("low"), Some("high"), Hold, None, 0, 2,
                                       None, ["low", "medium", "high"], 0.0)

  /** Turn names of growing length, so that no two are the same. */
  function Name(n: nat): (s: string)
    ensures |s| == n + 1
  {
    seq(n + 1, _ => 'a')
  }

  /** Nothing is moving, the first row is a hole, and every later turn kept its effort. */
  ghost predicate Kept(w: World) {
    && w.execs == map[] && w.inflight == 0 && w.planners == map[]
    && HoleAt(w.db, 0) && w.db.plans[0].epoch == w.db.session.epoch
    && !w.db.session.lineageUnknown && !w.db.session.compactionUnknown
    && (forall i | 0 <= i < |w.db.plans| :: |w.db.plans[i].turnId| == i + 1)
    && (forall i | 1 <= i < |w.db.plans| :: w.db.plans[i].action.Keep?)
  }

  /** One more turn begins on a kept session, and its plan is written down. */
  lemma {:induction false} OneMoreTurn(before: seq<Step>, w: World, p: PlanFields) returns (steps: seq<Step>, v: World)
    requires w == Run(IDLE, before, 1) && AllQuiet(IDLE, before, 1) && Kept(w) && Protocol.Names(p)
    ensures v == Run(IDLE, steps, 1) && AllQuiet(IDLE, steps, 1)
    ensures v == w.(db := Record(w.db, w.db.session, Name(|w.db.plans|), p, Live))
    ensures !Holds(w.db.plans, Name(|w.db.plans|))
  {
    hide Run, AllQuiet, Record;
    var turn := Name(|w.db.plans|);
    assert forall row | row in w.db.plans :: !row.OpenChange();
    steps, v := ThenQuietly(before, w, PlanBegins(0, turn));
    assert v.planners == map[0 := Planner(turn, w.db.session)];
    steps, v := ThenQuietly(steps, v, PlanEnds(0, p, Live));
    assert v.planners == map[];
  }

  lemma {:induction false} KeepTurns(before: seq<Step>, w: World, n: nat) returns (steps: seq<Step>, v: World)
    requires w == Run(IDLE, before, 1) && AllQuiet(IDLE, before, 1) && Kept(w)
    ensures v == Run(IDLE, steps, 1) && AllQuiet(IDLE, steps, 1)
    ensures Kept(v) && |v.db.plans| == |w.db.plans| + n
  {
    hide Run, AllQuiet, Kept, Record, Holds, Protocol.Names;
    if n == 0 {
      steps, v := before, w;
    } else {
      var mid, u := KeepTurns(before, w, n - 1);
      HoldNames();
      steps, v := OneMoreTurn(mid, u, HOLD);
      HoldKeeps(u);
    }
  }

  lemma HoldNames()
    ensures Protocol.Names(HOLD)
  {}

  lemma HoldKeeps(w: World)
    requires Kept(w) && !Holds(w.db.plans, Name(|w.db.plans|))
    ensures var v := w.(db := Record(w.db, w.db.session, Name(|w.db.plans|), HOLD, Live));
            Kept(v) && |v.db.plans| == |w.db.plans| + 1
  {}

  /** An epoch that holds a hole records a change again once enough turns have been kept. */
  lemma {:induction false} HoleForgotten() returns (steps: seq<Step>)
    ensures var v := Run(IDLE, steps, 1);
            && AllQuiet(IDLE, steps, 1) && HoleAt(v.db, 0)
            && v.db.plans[0].epoch == v.db.session.epoch
            && v.db.plans[|v.db.plans| - 1].OpenChange()
  {
    hide Run, AllQuiet;
    var s0, w0 := WentQuiet();
    var s1, w1 := ThenQuietly(s0, w0, Reconciles(0, Applied));
    var s2, w2 := KeepTurns(s1, w1, PLANS_WINDOW);
    HoleStopsChangeIff(w2.db, w2.db.session, Name(|w2.db.plans|), Raise("high", "low"), 0);
    var v;
    steps, v := OneMoreTurn(s2, w2, Raise("high", "low"));
  }
}
