/** The effort-update ledger: what a row's status becomes, and what the rows together say. */
module Ledger {
  import opened Prelude
  import opened EffortPolicy

  datatype Status = Planned | Accepted | Confirmed | Rejected | OutcomeUnknown | Unrecognised(text: string)

  datatype Event = WasAccepted | WasCompleted | WasRejected | WentUnknown | Other(text: string)

  /** One transition. Nothing un-confirms a row and nothing settles an ambiguous one. */
  function Advance(status: Status, event: Event): Status {
    if status.Unrecognised? || status == Confirmed then status
    else
      match event
      case WasAccepted => if status == Planned || status == Rejected then Accepted else status
      case WasCompleted => if status == Accepted then Confirmed else status
      case WasRejected => if status == Planned || status == Rejected then Rejected else OutcomeUnknown
      case WentUnknown => OutcomeUnknown
      case Other(_) => status
  }

  function AdvanceAll(status: Status, events: seq<Event>): Status
    decreases events
  {
    if events == [] then status else AdvanceAll(Advance(status, events[0]), events[1..])
  }

  // --- the trace theorem ---------------------------------------------------

  /** The first event of `events` that settles what the provider was asked. */
  function First(events: seq<Event>, wanted: set<Event>): (r: Option<Event>)
    ensures r.Some? ==> r.value in wanted && r.value in events
    ensures r.None? ==> forall e | e in events :: e !in wanted
  {
    if events == [] then None
    else if events[0] in wanted then Some(events[0])
    else First(events[1..], wanted)
  }

  /** Everything after the first acceptance. */
  function AfterAcceptance(events: seq<Event>): seq<Event> {
    if events == [] then [] else if events[0] == WasAccepted then events[1..] else AfterAcceptance(events[1..])
  }

  /** What a row's whole history comes to, read without stepping through it. */
  function Verdict(refusedBefore: bool, events: seq<Event>): Status {
    match First(events, {WasAccepted, WentUnknown})
    case None => if refusedBefore || WasRejected in events then Rejected else Planned
    case Some(WentUnknown) => OutcomeUnknown
    case Some(_) =>
      match First(AfterAcceptance(events), {WasCompleted, WasRejected, WentUnknown})
      case None => Accepted
      case Some(WasCompleted) => Confirmed
      case Some(_) => OutcomeUnknown
  }

  lemma {:induction false} SettledIsForever(status: Status, events: seq<Event>)
    requires status == Confirmed || status == OutcomeUnknown
    ensures AdvanceAll(status, events) == status
  {
    if events != [] {
      SettledIsForever(status, events[1..]);
    }
  }

  lemma {:induction false} AcceptedTrace(events: seq<Event>)
    ensures AdvanceAll(Accepted, events) ==
              match First(events, {WasCompleted, WasRejected, WentUnknown})
              case None => Accepted
              case Some(WasCompleted) => Confirmed
              case Some(_) => OutcomeUnknown
  {
    if events != [] {
      if events[0] in {WasCompleted, WasRejected, WentUnknown} {
        SettledIsForever(Advance(Accepted, events[0]), events[1..]);
      } else {
        AcceptedTrace(events[1..]);
      }
    }
  }

  lemma {:induction false} UnsentTrace(status: Status, events: seq<Event>)
    requires status == Planned || status == Rejected
    ensures AdvanceAll(status, events) == Verdict(status == Rejected, events)
    decreases events
  {
    if events != [] {
      var next := Advance(status, events[0]);
      if events[0] == WasAccepted {
        AcceptedTrace(events[1..]);
      } else if events[0] == WentUnknown {
        SettledIsForever(next, events[1..]);
      } else {
        UnsentTrace(next, events[1..]);
        assert events == [events[0]] + events[1..];
      }
    }
  }

  /** After any events from `planned`, the first `accepted` or `unknown` decides; after an
      acceptance, the next event that is not another acceptance decides for good. A row that
      was ever accepted is never left `rejected`. */
  lemma StatusTrace(events: seq<Event>)
    ensures AdvanceAll(Planned, events) == Verdict(false, events)
    ensures WasAccepted in events ==> AdvanceAll(Planned, events) != Rejected
  {
    UnsentTrace(Planned, events);
  }

  // --- rows ----------------------------------------------------------------

  datatype Outcome = Applied | NotApplied

  datatype PlanRow = PlanRow(
    turnId: string,
    sequence: nat,
    action: Action,
    status: Status,
    fromEffort: Option<Effort>,
    toEffort: Option<Effort>,
    recommendation: Option<Effort>,
    confirmedEffort: Option<Effort>,
    reconciled: Option<Outcome>,
    anchor: Option<nat>,
    epoch: nat)
  {
    /** An effort change nobody can call settled. */
    predicate OpenChange() {
      action.Change? && (status == Planned || status == Accepted || status == OutcomeUnknown)
    }

    /** Reconciled as applied by hand, and nobody saw where it landed. */
    predicate Hole() { action.Change? && reconciled == Some(Applied) && anchor.None? }

    predicate Reconcilable() { status == Accepted || status == OutcomeUnknown }

    predicate Sendable() { status == Planned || status == Rejected }
  }

  /** The open change with the highest sequence number, if there is one. */
  function OpenChange(rows: seq<PlanRow>): (r: Option<PlanRow>)
    ensures r.None? <==> forall row | row in rows :: !row.OpenChange()
    ensures r.Some? ==> r.value in rows && r.value.OpenChange()
    ensures r.Some? ==> forall row | row in rows && row.OpenChange() :: row.sequence <= r.value.sequence
  {
    if rows == [] then None
    else
      var rest := OpenChange(rows[1..]);
      assert rows == [rows[0]] + rows[1..];
      if rows[0].OpenChange() && (rest.None? || rest.value.sequence <= rows[0].sequence) then Some(rows[0]) else rest
  }

  /** The hole with the lowest sequence number, if there is one. */
  function ReconciliationHole(rows: seq<PlanRow>): (r: Option<PlanRow>)
    ensures r.None? <==> forall row | row in rows :: !row.Hole()
    ensures r.Some? ==> r.value in rows && r.value.Hole()
    ensures r.Some? ==> forall row | row in rows && row.Hole() :: r.value.sequence <= row.sequence
  {
    if rows == [] then None
    else
      var rest := ReconciliationHole(rows[1..]);
      assert rows == [rows[0]] + rows[1..];
      if rows[0].Hole() && (rest.None? || rows[0].sequence <= rest.value.sequence) then Some(rows[0]) else rest
  }

  /** The confirmed effective effort after this row, or what it already was. */
  function EffectiveAfter(row: PlanRow, confirmed: Effort): Effort {
    if row.status != Confirmed || !row.action.Change? then confirmed
    else if row.toEffort.Some? && row.toEffort.value != "" then row.toEffort.value
    else confirmed
  }
}
