/** The session row, its plan table, and the router's bookkeeping on them. */
module Sessions {
  import opened Prelude
  import opened EffortPolicy
  import opened Ledger

  // --- the rows ------------------------------------------------------------

  datatype Life = Prepared | Active

  /** One strict session bound for the experiment. A plan is named by its place in the table. */
  datatype Session = Session(
    life: Life,
    version: nat,
    base: Effort,
    effective: Effort,
    confirmed: Effort,
    expected: Effort,
    lineageUnknown: bool,
    compactionUnknown: bool,
    epoch: nat)

  datatype Db = Db(session: Session, plans: seq<PlanRow>)

  /** What the tap on a reply could read. */
  datatype Observation = Observation(responseId: string, status: string, usage: bool, parseFailed: bool)
  {
    predicate Completed() { status == "completed" }

    predicate Terminal() { status in ["completed", "failed", "incomplete", "cancelled"] && !parseFailed }
  }

  const PLANS_WINDOW: nat := 50

  /** The newest rows a plan query returns, oldest first. */
  function Window(plans: seq<PlanRow>): (r: seq<PlanRow>)
    ensures forall row | row in r :: row in plans
  {
    if |plans| <= PLANS_WINDOW then plans else plans[|plans| - PLANS_WINDOW..]
  }

  /** They are the last 50 of the table, in its order, or all of it. */
  lemma WindowIsNewest(plans: seq<PlanRow>)
    ensures |Window(plans)| == Min(PLANS_WINDOW, |plans|)
    ensures forall i | 0 <= i < |Window(plans)| :: Window(plans)[i] == plans[|plans| - |Window(plans)| + i]
  {}

  function Since(rows: seq<PlanRow>, epoch: nat): (r: seq<PlanRow>)
    ensures forall row :: row in r <==> row in rows && row.epoch >= epoch
  {
    if rows == [] then []
    else
      assert rows == [rows[0]] + rows[1..];
      (if rows[0].epoch >= epoch then [rows[0]] else []) + Since(rows[1..], epoch)
  }

  /** The kept rows stay in order: what comes before in the table comes before in the selection. */
  lemma {:induction false} SinceKeepsOrder(before: seq<PlanRow>, after: seq<PlanRow>, epoch: nat)
    ensures Since(before + after, epoch) == Since(before, epoch) + Since(after, epoch)
  {
    if before == [] {
      assert before + after == after;
    } else {
      assert (before + after)[1..] == before[1..] + after;
      SinceKeepsOrder(before[1..], after, epoch);
    }
  }

  function PlansThisEpoch(plans: seq<PlanRow>, epoch: nat): seq<PlanRow> { Since(Window(plans), epoch) }

  // --- what each piece of bookkeeping does ---------------------------------

  /** A conditional write names only the fields it sets. */
  datatype Patch = Patch(
    life: Option<Life>,
    effective: Option<Effort>,
    confirmed: Option<Effort>,
    expected: Option<Effort>,
    lineageUnknown: Option<bool>,
    compactionUnknown: Option<bool>,
    epoch: Option<nat>)

  const NOTHING: Patch := Patch(None, None, None, None, None, None, None)

  function Or<T>(o: Option<T>, otherwise: T): T { if o.Some? then o.value else otherwise }

  function Patched(s: Session, p: Patch): Session {
    Session(Or(p.life, s.life), s.version + 1, s.base, Or(p.effective, s.effective), Or(p.confirmed, s.confirmed),
            Or(p.expected, s.expected), Or(p.lineageUnknown, s.lineageUnknown),
            Or(p.compactionUnknown, s.compactionUnknown), Or(p.epoch, s.epoch))
  }

  function AllEfforts(e: Option<Effort>): Patch { NOTHING.(effective := e, confirmed := e, expected := e) }

  function Moved(db: Db, i: nat, event: Event, seen: Option<Observation>): Status
    requires i < |db.plans|
  {
    Advance(db.plans[i].status, if seen.Some? && seen.value.parseFailed then WentUnknown else event)
  }

  /** One fact moves one row; only a confirmed change moves the session's efforts. */
  function AdvancePlan(db: Db, i: nat, event: Event, seen: Option<Observation>): Db
    requires i < |db.plans|
  {
    var row := db.plans[i];
    var status := Moved(db, i, event, seen);
    var lands := status == Confirmed && row.action.Change?;
    var confirmed := if lands && row.toEffort.Some? then row.toEffort else row.confirmedEffort;
    Db(if lands then Patched(db.session, AllEfforts(row.toEffort)) else db.session,
       db.plans[i := row.(status := status, confirmedEffort := confirmed)])
  }

  /** The provider folded the history up: a new epoch, back at `base`, the base effort of the row
      that was read before the request went out. */
  function OpenEpoch(db: Db, base: Effort): Db {
    var epoch := NOTHING.(epoch := Some(db.session.epoch + 1), compactionUnknown := Some(false));
    db.(session := Patched(Patched(db.session, epoch), AllEfforts(Some(base))))
  }

  function MarkUnknown(db: Db): Db {
    db.(session := Patched(db.session, NOTHING.(compactionUnknown := Some(true), lineageUnknown := Some(true))))
  }

  function Observe(db: Db, seen: Observation): Db {
    if seen.responseId == "" && !seen.parseFailed && !seen.usage then db
    else db.(session := Patched(db.session, NOTHING.(lineageUnknown := if seen.parseFailed then Some(true) else None)))
  }

  function Settle(db: Db, i: nat, outcome: Outcome): Db
    requires i < |db.plans|
  {
    var row := db.plans[i];
    if !row.Reconcilable() then db
    else
      var plans := db.plans[i := row.(status := if outcome.Applied? then Confirmed else Rejected,
                                      confirmedEffort := if outcome.Applied? && row.toEffort.Some? then row.toEffort
                                        else row.confirmedEffort,
                                      reconciled := Some(outcome))];
      var moved := if row.action.Change?
                   then Patched(db.session, AllEfforts(if outcome.Applied? then row.toEffort
                                                       else Some(db.session.confirmed)))
                   else db.session;
      Db(if moved.lineageUnknown then Patched(moved, NOTHING.(lineageUnknown := Some(false))) else moved, plans)
  }

  predicate Holds(plans: seq<PlanRow>, turnId: string) { exists i :: 0 <= i < |plans| && plans[i].turnId == turnId }

  function NextSequence(plans: seq<PlanRow>): nat {
    if plans == [] then 1 else Max(NextSequence(plans[..|plans| - 1]), plans[|plans| - 1].sequence + 1)
  }

  datatype Mode = Shadow | Live

  /** The plan a decision becomes once holes and shadow have had their say. */
  function Written(p: PlanFields, hole: bool, mode: Mode): PlanFields {
    var q := if hole && p.action.Change? then p.(action := Blocked, toEffort := p.fromEffort) else p;
    if mode.Shadow? && q.action.Change? then q.(action := Keep, toEffort := q.fromEffort) else q
  }

  function RowOf(p: PlanFields, turnId: string, sequence: nat, epoch: nat): PlanRow {
    PlanRow(turnId, sequence, p.action, Planned, p.fromEffort, p.toEffort, p.recommendation, None, None, None, epoch)
  }

  /** Write one decision down, decided under the session row `seen` read at the start. */
  function Record(db: Db, seen: Session, turnId: string, p: PlanFields, mode: Mode): Db {
    if Holds(db.plans, turnId) then db
    else
      var q := Written(p, ReconciliationHole(PlansThisEpoch(db.plans, seen.epoch)).Some?, mode);
      Db(if q.action.Change? && seen.version == db.session.version
         then Patched(db.session, NOTHING.(expected := q.toEffort)) else db.session,
         db.plans + [RowOf(q, turnId, NextSequence(db.plans), seen.epoch)])
  }

  // --- the store -----------------------------------------------------------

  class SessionStore {
    var session: Session
    var plans: seq<PlanRow>
    var inflight: nat
    const cap: nat

    function Contents(): Db
      reads this
    {
      Db(session, plans)
    }

    constructor (session: Session, cap: nat)
      ensures Contents() == Db(session, []) && inflight == 0 && this.cap == cap
    {
      this.session, this.plans, this.inflight, this.cap := session, [], 0, cap;
    }

    /** Take the in-flight slot, or report that somebody else has it. */
    method Claim() returns (ok: bool)
      modifies this`inflight
      ensures ok == (old(inflight) < cap)
      ensures inflight == if ok then old(inflight) + 1 else old(inflight)
    {
      if inflight >= cap {
        return false;
      }
      inflight := inflight + 1;
      return true;
    }

    method Release()
      modifies this`inflight
      ensures inflight == if old(inflight) > 0 then old(inflight) - 1 else 0
    {
      if inflight > 0 {
        inflight := inflight - 1;
      }
    }

    /** A conditional write. False means somebody else moved the row first. */
    method Update(version: nat, p: Patch) returns (ok: bool)
      modifies this`session
      ensures ok == (old(session).version == version)
      ensures session == if ok then Patched(old(session), p) else old(session)
    {
      if session.version != version {
        return false;
      }
      session := Patched(session, p);
      return true;
    }

    method UpdatePlan(i: nat, row: PlanRow)
      requires i < |plans|
      modifies this`plans
      ensures plans == old(plans)[i := row]
    {
      plans := plans[i := row];
    }

    /** Write one plan row, or return the one that got to this turn first. */
    method RecordPlan(row: PlanRow) returns (i: nat)
      modifies this`plans
      ensures plans == if Holds(old(plans), row.turnId) then old(plans) else old(plans) + [row]
      ensures i < |plans| && plans[i].turnId == row.turnId
      ensures !Holds(old(plans), row.turnId) <==> i == |old(plans)|
    {
      i := 0;
      while i < |plans| && plans[i].turnId != row.turnId
        invariant i <= |plans|
        invariant forall k | 0 <= k < i :: plans[k].turnId != row.turnId
      {
        i := i + 1;
      }
      if i == |plans| {
        plans := plans + [row];
      }
    }

    method Compact()
      modifies this`session
      ensures session == Patched(old(session), NOTHING.(epoch := Some(old(session).epoch + 1),
                                                        compactionUnknown := Some(false)))
    {
      var _ := Update(session.version, NOTHING.(epoch := Some(session.epoch + 1), compactionUnknown := Some(false)));
    }

    /** Close an ambiguous update by hand; false is a refusal that wrote nothing. */
    method Reconcile(i: nat, outcome: Outcome) returns (ok: bool)
      requires i < |plans|
      modifies this
      ensures ok == old(plans)[i].Reconcilable()
      ensures Contents() == Settle(old(Contents()), i, outcome) && inflight == old(inflight)
    {
      var row := plans[i];
      if !row.Reconcilable() {
        return false;
      }
      var status := if outcome == Applied then Confirmed else Rejected;
      var effort := if outcome == Applied then row.toEffort else None;
      var confirmed := if effort.Some? then effort else row.confirmedEffort;
      UpdatePlan(i, row.(status := status, reconciled := Some(outcome), confirmedEffort := confirmed));
      if row.action == Change {
        var keep := if outcome == Applied then effort else Some(session.confirmed);
        var _ := Update(session.version, AllEfforts(keep));
      }
      if session.lineageUnknown {
        var _ := Update(session.version, NOTHING.(lineageUnknown := Some(false)));
      }
      return true;
    }
  }

  // --- the router's bookkeeping --------------------------------------------

  class Bookkeeper {
    const store: SessionStore

    constructor (store: SessionStore)
      ensures this.store == store
    {
      this.store := store;
    }

    /** Move one ledger row, and the session's efforts, on one fact. */
    method Move(i: nat, event: Event, seen: Option<Observation>)
      requires i < |store.plans|
      modifies store
      ensures store.Contents() == AdvancePlan(old(store.Contents()), i, event, seen)
      ensures store.inflight == old(store.inflight)
    {
      var row := store.plans[i];
      var status := Advance(row.status, event);
      if seen.Some? && seen.value.parseFailed {
        status := Advance(row.status, WentUnknown);
      }
      var lands := status == Confirmed && row.action == Change;
      var confirmed := if lands && row.toEffort.Some? then row.toEffort else row.confirmedEffort;
      store.UpdatePlan(i, row.(status := status, confirmedEffort := confirmed));
      if !lands {
        return;
      }
      var _ := store.Update(store.session.version, AllEfforts(row.toEffort));
    }

    method OpenCompactionEpoch(row: Session)
      modifies store
      ensures store.Contents() == OpenEpoch(old(store.Contents()), row.base)
      ensures store.inflight == old(store.inflight)
    {
      store.Compact();
      var base := row.base;
      var _ := store.Update(store.session.version, AllEfforts(Some(base)));
    }

    method MarkCompactionUnknown()
      modifies store
      ensures store.Contents() == MarkUnknown(old(store.Contents())) && store.inflight == old(store.inflight)
    {
      var _ := store.Update(store.session.version, NOTHING.(compactionUnknown := Some(true),
                                                            lineageUnknown := Some(true)));
    }

    method RecordObservation(seen: Observation)
      modifies store
      ensures store.Contents() == Observe(old(store.Contents()), seen) && store.inflight == old(store.inflight)
    {
      if seen.responseId != "" || seen.parseFailed || seen.usage {
        var lineage := if seen.parseFailed then Some(true) else None;
        var _ := store.Update(store.session.version, NOTHING.(lineageUnknown := lineage));
      }
    }

    /** The half of a turn decision that comes after the classifier has answered. */
    method RecordDecision(plan: TurnPlan, seen: Session, turnId: string, mode: Mode)
      modifies store, plan
      ensures store.Contents() == Record(old(store.Contents()), seen, turnId, old(plan.Fields()), mode)
      ensures store.inflight == old(store.inflight)
    {
      var hole := ReconciliationHole(PlansThisEpoch(store.plans, seen.epoch));
      if hole.Some? && plan.action == Change {
        plan.Block();
      }
      if mode == Shadow && plan.action == Change {
        plan.HoldBack();
      }
      var size := |store.plans|;
      var i := store.RecordPlan(RowOf(plan.Fields(), turnId, NextSequence(store.plans), seen.epoch));
      if i == size && plan.action == Change {
        var _ := store.Update(seen.version, NOTHING.(expected := plan.toEffort));
      }
    }
  }
}
