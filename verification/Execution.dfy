/** One managed request from its claim to its release, on every way it can end. */
module Execution {
  import opened Prelude
  import opened Ledger
  import opened Sessions
  import Protocol

  // --- what can happen to a request ----------------------------------------

  /** How the body of an accepted reply ends. */
  datatype Body =
    | NeverStarted    // the client left before the first chunk
    | Drained         // the upstream closed cleanly
    | UpstreamFailed  // the upstream broke
    | ClientLeft      // cancelled while waiting for the upstream
    | Abandoned       // left at a yield and never resumed

  datatype Fate =
    | Conflict
    | NotBooked
    | ConnectionRefused
    | SendBroke
    | SendAborted
    | Answered(status: nat, body: Body, seen: Observation)
  {
    predicate Accepted() { Answered? && 200 <= status < 300 }
  }

  /** The statuses a request record can be left with. */
  datatype RequestStatus = Completed | Refused | StreamFailed | Unknown

  datatype Ending = Clean | Failed | Disconnected

  // --- the request as it runs ----------------------------------------------

  /** What the reply's end says about the plan it carried. */
  function PlanEvent(end: Ending, seen: Observation): Event {
    if seen.Completed() && end.Clean? && !seen.parseFailed then WasCompleted else WentUnknown
  }

  function FinalStatus(end: Ending, responses: bool, seen: Observation): RequestStatus {
    if end.Clean? && (responses ==> seen.Terminal()) then Completed
    else if end.Failed? then StreamFailed
    else Unknown
  }

  /** One request, with a count of the store calls that must balance: claims taken and given
      up, final statuses written, and facts told to the plan it carries. */
  class Request {
    const responses: bool
    const carriesPlan: bool
    var claims: nat
    var releases: nat
    var finals: seq<RequestStatus>
    var events: seq<Event>
    var done: bool
    var told: bool

    constructor (responses: bool, carriesPlan: bool)
      ensures this.responses == responses && this.carriesPlan == carriesPlan
      ensures claims == releases == 0 && finals == [] && events == [] && !done && !told
    {
      this.responses, this.carriesPlan := responses, carriesPlan;
      claims, releases, finals, events := 0, 0, [], [];
      done, told := false, false;
    }

    method AdvancePlan(event: Event)
      modifies this`events
      ensures events == old(events) + (if carriesPlan then [event] else [])
    {
      if carriesPlan {
        events := events + [event];
      }
    }

    /** Settle the request and give its claim up. A second call does nothing. */
    method Finish(status: RequestStatus)
      modifies this`finals, this`releases, this`done
      ensures done
      ensures finals == old(finals) + (if old(done) then [] else [status])
      ensures releases == old(releases) + (if old(done) then 0 else 1)
    {
      if done {
        return;
      }
      done := true;
      finals, releases := finals + [status], releases + 1;
    }

    /** Account for a reply once, however often the transport reports its end. */
    method OnFinish(accepted: bool, end: Ending, seen: Observation)
      modifies this`events, this`finals, this`releases, this`done, this`told
      ensures told
      ensures done == (old(done) || (accepted && !old(told)))
      ensures events == old(events) + (if !old(told) && accepted && responses && carriesPlan
                                       then [PlanEvent(end, seen)] else [])
      ensures finals == old(finals) + (if !old(told) && accepted && !old(done)
                                       then [FinalStatus(end, responses, seen)] else [])
      ensures releases == old(releases) + (if !old(told) && accepted && !old(done) then 1 else 0)
    {
      if told {
        return;
      }
      told := true;
      if !accepted {
        return;
      }
      var settled := end == Clean;
      if responses {
        settled := settled && seen.Terminal();
        AdvancePlan(PlanEvent(end, seen));
      }
      if settled {
        Finish(Completed);
      } else {
        Finish(if end == Failed then StreamFailed else Unknown);
      }
    }

    /** The body generator, the close that follows it, and the backstop after both. */
    method Stream(accepted: bool, body: Body, seen: Observation)
      requires !told && done == !accepted
      modifies this`events, this`finals, this`releases, this`done, this`told
      ensures done && told
      ensures events == old(events) + (if accepted && responses && carriesPlan then [PlanEvent(EndOf(body), seen)]
                                       else [])
      ensures finals == old(finals) + (if accepted then [FinalStatus(EndOf(body), responses, seen)] else [])
      ensures releases == old(releases) + (if accepted then 1 else 0)
    {
      var suspended := false;
      match body {
        case NeverStarted =>
        case Drained => OnFinish(accepted, Clean, seen);
        case UpstreamFailed => OnFinish(accepted, Failed, seen);
        case ClientLeft => OnFinish(accepted, Disconnected, seen);
        case Abandoned => suspended := true;
      }
      if suspended {
        // Closing the generator throws into it, and its `finally` runs.
        OnFinish(accepted, Disconnected, seen);
      }
      OnFinish(accepted, Disconnected, seen);
    }

    method Forward(fate: Fate)
      requires !fate.Conflict? && !fate.NotBooked? && !done && !told
      modifies this`events, this`finals, this`releases, this`done, this`told
      ensures done && releases == old(releases) + 1
      ensures finals == old(finals) + Left(fate, responses)
      ensures events == old(events) + (if carriesPlan then Heard(fate, responses) else [])
    {
      match fate {
        case ConnectionRefused =>
          AdvancePlan(WasRejected);
          Finish(Refused);
        case SendBroke =>
          AdvancePlan(WentUnknown);
          Finish(Unknown);
        case SendAborted =>
          // Raised out of the send, and settled on the way out.
          Finish(Unknown);
          AdvancePlan(WentUnknown);
        case Answered(status, body, seen) =>
          var accepted := 200 <= status < 300;
          if !accepted {
            AdvancePlan(WasRejected);
            Finish(Refused);
          } else {
            AdvancePlan(WasAccepted);
          }
          Stream(accepted, body, seen);
      }
    }

    /** Claim, book, forward. One final status is written exactly when the request was claimed
        and booked: failed bookkeeping gives the claim up and leaves the record in flight. */
    method Manage(fate: Fate)
      requires claims == releases == 0 && finals == [] && events == [] && !done && !told
      modifies this
      ensures claims == releases <= 1 && (claims == 0 <==> fate.Conflict?)
      ensures |finals| <= 1 && (|finals| == 1 <==> !fate.Conflict? && !fate.NotBooked?)
      ensures finals == Left(fate, responses)
      ensures events == if carriesPlan then Heard(fate, responses) else []
    {
      if fate.Conflict? {
        return;
      }
      claims := claims + 1;
      if fate.NotBooked? {
        releases := releases + 1;
        return;
      }
      Forward(fate);
    }
  }

  // --- what a request leaves behind ----------------------------------------

  function EndOf(body: Body): Ending {
    match body
    case Drained => Clean
    case UpstreamFailed => Failed
    case _ => Disconnected
  }

  /** What the request record is left saying. */
  function Left(fate: Fate, responses: bool): seq<RequestStatus> {
    match fate
    case Conflict => []
    case NotBooked => []
    case ConnectionRefused => [Refused]
    case Answered(_, body, seen) => if fate.Accepted() then [FinalStatus(EndOf(body), responses, seen)] else [Refused]
    case _ => [Unknown]
  }

  /** Which status a request is left with. Completed means the body drained and, where a reply is read, its terminal
      event was; a broken upstream is a failed stream; every other end of an accepted reply is unknown. */
  lemma LeftIff(fate: Fate, responses: bool)
    ensures var left, ended := Left(fate, responses), fate.Answered? && 200 <= fate.status < 300;
            && (left == [] <==> fate.Conflict? || fate.NotBooked?)
            && (left == [Refused] <==> fate.ConnectionRefused? || (fate.Answered? && !ended))
            && (left == [Completed] <==>
                  && ended && fate.body.Drained?
                  && (responses ==>
                        && !fate.seen.parseFailed
                        && fate.seen.status in {"completed", "failed", "incomplete", "cancelled"}))
            && (left == [StreamFailed] <==> ended && fate.body.UpstreamFailed?)
            && |left| <= 1
  {}

  /** What the plan is told along the way. */
  function Heard(fate: Fate, responses: bool): seq<Event> {
    match fate
    case Conflict => []
    case NotBooked => []
    case ConnectionRefused => [WasRejected]
    case Answered(_, body, seen) =>
      if !fate.Accepted() then [WasRejected]
      else if responses then [WasAccepted, PlanEvent(EndOf(body), seen)]
      else [WasAccepted]
    case _ => [WentUnknown]
  }

  /** Which facts the carried plan is told, in this order: that it was refused, exactly before acceptance; that it was
      accepted; and once a reply that is read is over, that it was completed, exactly when the body drained and was
      readable to a completion. The outcome is unknown where the send itself broke or the reply ended otherwise. */
  lemma HeardIff(fate: Fate, responses: bool)
    ensures var heard, ended := Heard(fate, responses), fate.Answered? && 200 <= fate.status < 300;
            var finished := ended && fate.body.Drained? && fate.seen.status == "completed" && !fate.seen.parseFailed;
            && |heard| == (if fate.Conflict? || fate.NotBooked? then 0 else if ended && responses then 2 else 1)
            && (WasRejected in heard <==> fate.ConnectionRefused? || (fate.Answered? && !ended))
            && (WasAccepted in heard <==> ended) && (ended ==> heard[0] == WasAccepted)
            && (WasCompleted in heard <==> responses && finished)
            && (WentUnknown in heard <==> fate.SendBroke? || fate.SendAborted? || (responses && ended && !finished))
  {}

  /** A plan sent from `planned` or `rejected` is settled when its request is: refused plans can
      be sent again, and only a clean, readable completion confirms one. */
  lemma PlanSettledWithRequest(fate: Fate, before: Status)
    requires before == Planned || before == Rejected
    ensures AdvanceAll(before, Heard(fate, true)) ==
              match fate
              case Conflict => before
              case NotBooked => before
              case ConnectionRefused => Rejected
              case Answered(_, body, seen) =>
                if !fate.Accepted() then Rejected
                else if body.Drained? && seen.Completed() && !seen.parseFailed then Confirmed
                else OutcomeUnknown
              case _ => OutcomeUnknown
    ensures AdvanceAll(before, Heard(fate, true)) == Confirmed ==> Left(fate, true) == [Completed]
  {
    var heard := Heard(fate, true);
    if heard != [] {
      var next := Advance(before, heard[0]);
      assert AdvanceAll(before, heard) == AdvanceAll(next, heard[1..]);
      if |heard| == 2 {
        assert heard[1..][1..] == [];
        assert AdvanceAll(next, heard[1..]) == Advance(next, heard[1]);
      }
    }
  }

  /** A managed request never leaves its plan half way: it is untouched, refused before
      acceptance, confirmed, or in the one state a hand reconciliation may speak about. */
  lemma NeverHalfWay(fate: Fate, before: Status)
    requires before == Planned || before == Rejected
    ensures AdvanceAll(before, Heard(fate, true)) != Accepted
    ensures AdvanceAll(before, Heard(fate, true)) == Planned ==> fate.Conflict? || fate.NotBooked?
  {
    PlanSettledWithRequest(fate, before);
  }

  // --- the same request as steps of the protocol --------------------------------

  /** What a request does to the session, step by step between its awaits. It may name a plan, and it may be a
      compaction. */
  function StepsOf(fate: Fate, e: nat, named: Option<nat>, maintenance: bool, anchor: Option<nat>)
    : (steps: seq<Protocol.Step>)
    ensures 1 <= |steps| <= 3
  {
    var begins := Protocol.ExecBegins(e, named, maintenance, !fate.NotBooked?);
    match fate
    case Conflict => [begins]
    case NotBooked => [begins]
    case ConnectionRefused => [begins, Protocol.SendFails(e, true)]
    case SendBroke => [begins, Protocol.SendFails(e, false)]
    case SendAborted => [begins, Protocol.SendAborts(e)]
    case Answered(_, body, seen) =>
      if fate.Accepted() then
        [begins, Protocol.Answers(e, true, anchor), Protocol.StreamEnds(e, EndOf(body).Clean?, seen)]
      else [begins, Protocol.Answers(e, false, anchor)]
  }

  /** The carried plan, if there is one, stands where these events have taken it, and every other row is the
      same. */
  ghost predicate Heeds(before: seq<PlanRow>, after: seq<PlanRow>, carried: Option<nat>, events: seq<Event>) {
    && |after| == |before|
    && (forall k | 0 <= k < |before| && carried != Some(k) :: after[k] == before[k])
    && (carried.Some? && carried.value < |before| ==>
          after[carried.value].status == AdvanceAll(before[carried.value].status, events))
  }

  /** A run that holds exactly one claim from its first step to its last and none after, leaves every other
      execution and plan request alone, and tells the carried plan these events. */
  ghost predicate HoldsOneClaim(w: Protocol.World, steps: seq<Protocol.Step>, carried: Option<nat>,
                                events: seq<Event>, cap: nat)
  {
    var v := Protocol.Run(w, steps, cap);
    && v.inflight == w.inflight && v.execs == w.execs && v.planners == w.planners
    && Heeds(w.db.plans, v.db.plans, carried, events)
    && forall n | 0 < n < |steps| :: Protocol.Run(w, steps[..n], cap).inflight == w.inflight + 1
  }

  lemma {:induction false} RunsBy(w: Protocol.World, steps: seq<Protocol.Step>, step: Protocol.Step, cap: nat)
    ensures Protocol.Run(w, steps + [step], cap) == Protocol.Next(Protocol.Run(w, steps, cap), step, cap)
  {
    hide Protocol.Next;
    assert (steps + [step])[..|steps|] == steps;
  }

  lemma NoSteps(w: Protocol.World, cap: nat)
    ensures Protocol.Run(w, [], cap) == w
  {}

  lemma ShortTraces(status: Status, events: seq<Event>)
    requires |events| <= 2
    ensures AdvanceAll(status, events) ==
            if |events| == 0 then status
            else if |events| == 1 then Advance(status, events[0])
            else Advance(Advance(status, events[0]), events[1])
  {
    if |events| == 1 {
      assert events[1..] == [];
    } else if |events| == 2 {
      var next := Advance(status, events[0]);
      assert events[1..][0] == events[1] && events[1..][1..] == [];
      assert AdvanceAll(next, events[1..]) == AdvanceAll(Advance(next, events[1]), []);
    }
  }

  /** The claim is taken, and the plan is carried if it is still to be sent. */
  lemma Begun(w: Protocol.World, e: nat, named: Option<nat>, maintenance: bool, cap: nat)
    requires Protocol.Balanced(w, cap) && e !in w.execs && w.inflight < cap
    ensures var begins := Protocol.ExecBegins(e, named, maintenance, true);
            var v := Protocol.Run(w, [begins], cap);
            var carried := Protocol.Carried(w.db, named, maintenance);
            && v == w.(inflight := w.inflight + 1,
                       execs := w.execs[e := Protocol.Exec(carried, maintenance, false, w.db.session)])
            && v.execs - {e} == w.execs
  {
    hide Protocol.Carried;
    var begins := Protocol.ExecBegins(e, named, maintenance, true);
    RunsBy(w, [], begins, cap);
    NoSteps(w, cap);
    assert [begins] == [] + [begins];
  }

  lemma CarriedIsListed(db: Db, named: Option<nat>, maintenance: bool)
    ensures var carried := Protocol.Carried(db, named, maintenance);
            carried.Some? ==> carried.value < |db.plans| && !maintenance
  {}

  /** A request that fails gives its claim up and tells its plan why. */
  lemma Told(w: Protocol.World, e: nat, event: Event)
    requires Protocol.Sending(w, e) && w.inflight > 0
    requires w.execs[e].pending.Some? ==> w.execs[e].pending.value < |w.db.plans|
    ensures var v := Protocol.Fail(w, e, event);
            && v.inflight == w.inflight - 1 && v.execs == w.execs - {e} && v.planners == w.planners
            && Heeds(w.db.plans, v.db.plans, w.execs[e].pending, [event])
  {
    if w.execs[e].pending.Some? {
      ShortTraces(w.db.plans[w.execs[e].pending.value].status, [event]);
    }
  }

  lemma AcceptedAndTold(w: Protocol.World, e: nat, anchor: Option<nat>, clean: bool, seen: Observation)
    requires Protocol.Sending(w, e) && w.inflight > 0
    requires w.execs[e].pending.Some? ==> w.execs[e].pending.value < |w.db.plans| && !w.execs[e].maintenance
    ensures var v := Protocol.Accept(w, e, anchor);
            var u := Protocol.Finish(v, e, clean, seen);
            var event := PlanEvent(if clean then Clean else Disconnected, seen);
            && v.inflight == w.inflight && e in v.execs
            && u.inflight == w.inflight - 1 && u.execs == w.execs - {e} && u.planners == w.planners
            && Heeds(w.db.plans, u.db.plans, w.execs[e].pending, [WasAccepted, event])
  {
    if w.execs[e].pending.Some? {
      var event := PlanEvent(if clean then Clean else Disconnected, seen);
      ShortTraces(w.db.plans[w.execs[e].pending.value].status, [WasAccepted, event]);
    }
  }

  lemma Declined(w: Protocol.World, e: nat, named: Option<nat>, maintenance: bool, booked: bool, cap: nat)
    requires !booked || w.inflight >= cap
    ensures Protocol.Next(w, Protocol.ExecBegins(e, named, maintenance, booked), cap) == w
  {
    hide Protocol.Fail, Protocol.Accept, Protocol.Finish;
  }

  lemma NeverSent(w: Protocol.World, begins: Protocol.Step, carried: Option<nat>, cap: nat)
    requires Protocol.Next(w, begins, cap) == w
    ensures HoldsOneClaim(w, [begins], carried, [], cap)
  {
    hide Protocol.Next;
    RunsBy(w, [], begins, cap);
    NoSteps(w, cap);
    assert [begins] == [] + [begins];
  }

  lemma SentInVain(w: Protocol.World, last: Protocol.Step, event: Event, e: nat, named: Option<nat>,
                   maintenance: bool, cap: nat)
    requires Protocol.Balanced(w, cap) && e !in w.execs && w.inflight < cap
    requires forall v :: Protocol.Next(v, last, cap) == Protocol.Fail(v, e, event)
    ensures HoldsOneClaim(w, [Protocol.ExecBegins(e, named, maintenance, true), last],
                          Protocol.Carried(w.db, named, maintenance), [event], cap)
  {
    hide Protocol.Run, Protocol.Next, Protocol.Fail, Protocol.Carried, Heeds;
    var begins := Protocol.ExecBegins(e, named, maintenance, true);
    var steps := [begins, last];
    Begun(w, e, named, maintenance, cap);
    CarriedIsListed(w.db, named, maintenance);
    assert steps[..1] == [begins] && steps == [begins] + [last];
    RunsBy(w, [begins], last, cap);
    Told(Protocol.Run(w, [begins], cap), e, event);
  }

  lemma SentAndAccepted(w: Protocol.World, e: nat, named: Option<nat>, maintenance: bool, anchor: Option<nat>,
                        clean: bool, seen: Observation, cap: nat)
    requires Protocol.Balanced(w, cap) && e !in w.execs && w.inflight < cap
    ensures HoldsOneClaim(w, [Protocol.ExecBegins(e, named, maintenance, true), Protocol.Answers(e, true, anchor),
                              Protocol.StreamEnds(e, clean, seen)],
                          Protocol.Carried(w.db, named, maintenance),
                          [WasAccepted, PlanEvent(if clean then Clean else Disconnected, seen)], cap)
  {
    hide Protocol.Run, Protocol.Accept, Protocol.Finish, Protocol.Carried, Heeds, PlanEvent;
    var begins, answers := Protocol.ExecBegins(e, named, maintenance, true), Protocol.Answers(e, true, anchor);
    var ends := Protocol.StreamEnds(e, clean, seen);
    var steps := [begins, answers, ends];
    Begun(w, e, named, maintenance, cap);
    CarriedIsListed(w.db, named, maintenance);
    assert steps[..1] == [begins] && steps[..2] == [begins] + [answers] && steps == steps[..2] + [ends];
    RunsBy(w, [begins], answers, cap);
    RunsBy(w, steps[..2], ends, cap);
    AcceptedAndTold(Protocol.Run(w, [begins], cap), e, anchor, clean, seen);
  }

  /** Every request, whether it carries a plan, none, or is a compaction, is one run of the protocol: one claim
      from first step to last, and its plan is told what the request tells it. */
  lemma {:induction false} RequestIsRun(w: Protocol.World, fate: Fate, e: nat, named: Option<nat>, maintenance: bool,
                                        anchor: Option<nat>, cap: nat)
    requires Protocol.Balanced(w, cap) && e !in w.execs && (fate.Conflict? <==> w.inflight >= cap)
    ensures HoldsOneClaim(w, StepsOf(fate, e, named, maintenance, anchor),
                          Protocol.Carried(w.db, named, maintenance), Heard(fate, true), cap)
  {
    hide HoldsOneClaim, Protocol.Carried;
    var carried := Protocol.Carried(w.db, named, maintenance);
    match fate
    case Conflict =>
      Declined(w, e, named, maintenance, true, cap);
      NeverSent(w, Protocol.ExecBegins(e, named, maintenance, true), carried, cap);
    case NotBooked =>
      Declined(w, e, named, maintenance, false, cap);
      NeverSent(w, Protocol.ExecBegins(e, named, maintenance, false), carried, cap);
    case ConnectionRefused =>
      SentInVain(w, Protocol.SendFails(e, true), WasRejected, e, named, maintenance, cap);
    case SendBroke =>
      SentInVain(w, Protocol.SendFails(e, false), WentUnknown, e, named, maintenance, cap);
    case SendAborted =>
      SentInVain(w, Protocol.SendAborts(e), WentUnknown, e, named, maintenance, cap);
    case Answered(_, body, seen) =>
      if fate.Accepted() {
        SentAndAccepted(w, e, named, maintenance, anchor, EndOf(body).Clean?, seen, cap);
      } else {
        SentInVain(w, Protocol.Answers(e, false, anchor), WasRejected, e, named, maintenance, cap);
      }
  }
}
