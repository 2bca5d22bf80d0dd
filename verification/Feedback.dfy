/** A person's verdict moves a fixed-effort session one rung along its model's efforts. */
module Feedback {
  import opened Prelude
  import opened EffortPolicy
  import opened PolicyOrder
  import TurnLadder

  datatype Verdict = TooWeak | TooStrong | Other

  datatype Life = Open | Blocked | Closed

  datatype Adaptation = Off | Shadow | Active

  datatype Session = Session(version: nat, life: Life, tombstone: bool, adaptation: Adaptation, responses: bool,
                             base: Effort, effective: Effort, expected: Effort, confirmed: Effort,
                             wireModel: string)

  /** The bound model's efforts, the alias cap and the client floor, and how the model is named on the wire
      at an effort. */
  datatype Limits = Limits(order: seq<Effort>, efforts: seq<Effort>, cap: Option<Effort>, floor: Option<Effort>,
                           wire: Effort -> string)
  {
    /** Configuration validation keeps every effort in the order; that none repeats is assumed. */
    predicate Valid() {
      && Distinct(order) && "" !in order && Distinct(efforts)
      && forall e | e in efforts :: e in order
    }
  }

  datatype Refusal =
    | VerdictKeepsEffort | SessionClosed | SessionBlocked | AdaptiveEffortActive | BaseEffortChecked
    | NotOnLadder | AtHighest | AtLowest | Conflict

  datatype EffortStep = Refused(why: Refusal) | Moved(to: Effort)

  // --- the rungs a person may step between -----------------------------------

  /** The same cap and floor a turn's ladder is cut to, without a lane or a protected rule. */
  function Cut(l: Limits): TurnLadder.Setting {
    TurnLadder.Setting(l.order, l.efforts, l.efforts, l.floor, Some(TurnLadder.Alias(l.cap, [])), None, "", "", "")
  }

  function Ladder(l: Limits): seq<Effort> {
    var rungs := TurnLadder.Sort(l.order, l.efforts);
    TurnLadder.Kept(Cut(l), l.floor, rungs, |rungs|)
  }

  /** Within the floor and the cap, where they are set. */
  ghost predicate Allowed(l: Limits, e: Effort) {
    && (l.floor.Some? && l.floor.value != "" ==> Rank(l.order, l.floor.value) <= Rank(l.order, e))
    && (l.cap.Some? && l.cap.value != "" ==> Rank(l.order, e) <= Rank(l.order, l.cap.value))
  }

  lemma CutPermits(l: Limits, e: Effort)
    ensures TurnLadder.Permits(Cut(l), l.floor, e) <==> Allowed(l, e)
  {
    hide Rank;
  }

  /** The ladder is the model's efforts within cap and floor, each once, weakest first. */
  lemma {:induction false} LadderIsCut(l: Limits)
    requires l.Valid()
    ensures Distinct(Ladder(l))
    ensures forall i, j | 0 <= i < j < |Ladder(l)| :: Rank(l.order, Ladder(l)[i]) < Rank(l.order, Ladder(l)[j])
    ensures forall e :: e in Ladder(l) <==> e in l.efforts && Allowed(l, e)
  {
    hide TurnLadder.Permits, TurnLadder.Ascending, Rank;
    var rungs := TurnLadder.Sort(l.order, l.efforts);
    TurnLadder.SortAscends(l.order, l.efforts);
    TurnLadder.KeptMembers(Cut(l), l.floor, rungs, |rungs|);
    TurnLadder.KeptAscends(Cut(l), l.floor, rungs, |rungs|);
    assert rungs[..|rungs|] == rungs;
    forall e ensures e in rungs <==> e in l.efforts {
      assert e in rungs <==> e in multiset(rungs);
      assert e in l.efforts <==> e in multiset(l.efforts);
    }
    TurnLadder.DistinctFromMultiset(Ladder(l), l.efforts);
    forall e ensures TurnLadder.Permits(Cut(l), l.floor, e) <==> Allowed(l, e) {
      CutPermits(l, e);
    }
    forall i, j | 0 <= i < j < |Ladder(l)| ensures Rank(l.order, Ladder(l)[i]) < Rank(l.order, Ladder(l)[j]) {
      assert Ladder(l)[i] in l.efforts && Ladder(l)[j] in l.efforts;
      TurnLadder.HigherRungRanksHigher(l.order, Ladder(l), i, j);
    }
  }

  // --- one step ----------------------------------------------------------------

  /** What a verdict asks of the session row that was read, before anything is written. */
  function StepFor(s: Session, v: Verdict, ladder: seq<Effort>): EffortStep {
    if v.Other? then Refused(VerdictKeepsEffort)
    else if s.tombstone || s.life.Closed? then Refused(SessionClosed)
    else if s.life.Blocked? then Refused(SessionBlocked)
    else if s.adaptation.Active? then Refused(AdaptiveEffortActive)
    else if !s.adaptation.Off? && s.responses then Refused(BaseEffortChecked)
    else if s.base !in ladder then Refused(NotOnLadder)
    else
      var at := IndexOf(ladder, s.base).value + if v.TooWeak? then 1 else -1;
      if 0 <= at < |ladder| then Moved(ladder[at])
      else Refused(if v.TooWeak? then AtHighest else AtLowest)
  }

  function Written(s: Session, to: Effort, wireModel: string): Session {
    s.(version := s.version + 1, base := to, effective := to, expected := to, confirmed := to,
       wireModel := wireModel)
  }

  /** Why a verdict is refused: the first of these that holds, and no other. */
  lemma RefusedIff(s: Session, v: Verdict, ladder: seq<Effort>)
    requires Distinct(ladder)
    ensures var why := StepFor(s, v, ladder);
            var closed := s.tombstone || s.life.Closed?;
            var live := !v.Other? && !closed && !s.life.Blocked?;
            var free := live && (s.adaptation.Off? || (!s.adaptation.Active? && !s.responses));
            && (why == Refused(VerdictKeepsEffort) <==> v.Other?)
            && (why == Refused(SessionClosed) <==> !v.Other? && closed)
            && (why == Refused(SessionBlocked) <==> !v.Other? && !closed && s.life.Blocked?)
            && (why == Refused(AdaptiveEffortActive) <==> live && s.adaptation.Active?)
            && (why == Refused(BaseEffortChecked) <==>
                  live && s.responses && !s.adaptation.Active? && !s.adaptation.Off?)
            && (why == Refused(NotOnLadder) <==> free && s.base !in ladder)
            && (why == Refused(AtHighest) <==>
                  free && v.TooWeak? && s.base in ladder && s.base == ladder[|ladder| - 1])
            && (why == Refused(AtLowest) <==> free && v.TooStrong? && s.base in ladder && s.base == ladder[0])
  {
    if s.base in ladder {
      IndexOfDistinct(ladder, 0);
      IndexOfDistinct(ladder, |ladder| - 1);
    }
  }

  class SessionRow {
    var session: Session

    constructor (session: Session)
      ensures this.session == session
    {
      this.session := session;
    }

    /** Step the effort the row `read` names. A row that moved since is left alone, and says so. */
    method StepEffort(read: Session, verdict: Verdict, limits: Limits) returns (step: EffortStep)
      modifies this
      ensures var d := StepFor(read, verdict, Ladder(limits));
              if d.Moved? && old(session).version == read.version
              then step == d && session == Written(old(session), d.to, limits.wire(d.to))
              else session == old(session) && step == if d.Moved? then Refused(Conflict) else d
      ensures step.Moved? ==>
                && session.base == session.effective == session.expected == session.confirmed == step.to
                && session.wireModel == limits.wire(step.to) && session.version == old(session).version + 1
    {
      if verdict == Other {
        return Refused(VerdictKeepsEffort);
      }
      if read.tombstone || read.life == Closed {
        return Refused(SessionClosed);
      }
      if read.life == Life.Blocked {
        return Refused(SessionBlocked);
      }
      if read.adaptation == Active {
        return Refused(AdaptiveEffortActive);
      }
      if read.adaptation != Off && read.responses {
        return Refused(BaseEffortChecked);
      }
      var ladder := Ladder(limits);
      if read.base !in ladder {
        return Refused(NotOnLadder);
      }
      var at := IndexOf(ladder, read.base).value + if verdict == TooWeak then 1 else -1;
      if !(0 <= at < |ladder|) {
        return Refused(if verdict == TooWeak then AtHighest else AtLowest);
      }
      if session.version != read.version {
        return Refused(Conflict);
      }
      session := Written(session, ladder[at], limits.wire(ladder[at]));
      return Moved(ladder[at]);
    }
  }

  // --- what steps promise --------------------------------------------------------

  predicate Steppable(s: Session) {
    s.life.Open? && !s.tombstone && !s.adaptation.Active? && (s.adaptation.Off? || !s.responses)
  }

  /** A step that moves goes to a rung the limits permit, strictly stronger or weaker as asked, and no
      rung of the ladder lies between. */
  lemma {:induction false} StepsToNeighbour(s: Session, v: Verdict, l: Limits)
    requires l.Valid() && StepFor(s, v, Ladder(l)).Moved?
    ensures var to := StepFor(s, v, Ladder(l)).to;
            && to in l.efforts && Allowed(l, to)
            && (if v.TooWeak? then Rank(l.order, s.base) < Rank(l.order, to)
                else Rank(l.order, to) < Rank(l.order, s.base))
            && forall e | e in Ladder(l) ::
                 !(Rank(l.order, s.base) < Rank(l.order, e) < Rank(l.order, to)) &&
                 !(Rank(l.order, to) < Rank(l.order, e) < Rank(l.order, s.base))
  {
    hide Rank, Allowed, Ladder;
    LadderIsCut(l);
    var ladder := Ladder(l);
    var from := IndexOf(ladder, s.base).value;
    var at := if v.TooWeak? then from + 1 else from - 1;
    assert ladder[at] in ladder;
    forall e | e in ladder
      ensures !(Rank(l.order, s.base) < Rank(l.order, e) < Rank(l.order, ladder[at])) &&
              !(Rank(l.order, ladder[at]) < Rank(l.order, e) < Rank(l.order, s.base))
    {
      var k :| 0 <= k < |ladder| && ladder[k] == e;
    }
  }

  function Answered(s: Session, v: Verdict, ladder: seq<Effort>, wire: Effort -> string): Session {
    var d := StepFor(s, v, ladder);
    if d.Moved? then Written(s, d.to, wire(d.to)) else s
  }

  /** The session after `n` verdicts of one kind, each read and written without a race. */
  function After(s: Session, v: Verdict, ladder: seq<Effort>, wire: Effort -> string, n: nat): Session {
    if n == 0 then s else Answered(After(s, v, ladder, wire, n - 1), v, ladder, wire)
  }

  /** The session reads the same everywhere. */
  predicate InStep(s: Session) {
    s.effective == s.expected == s.confirmed == s.base
  }

  /** Where a verdict leaves a session that stands at rung `at`. */
  function NextRung(v: Verdict, at: nat, top: nat): nat {
    if v.TooWeak? then Min(at + 1, top) else Max(at - 1, 0)
  }

  lemma OneVerdict(s: Session, v: Verdict, ladder: seq<Effort>, wire: Effort -> string, at: nat)
    requires Steppable(s) && !v.Other? && Distinct(ladder) && at < |ladder| && ladder[at] == s.base
    ensures var (to, t) := (NextRung(v, at, |ladder| - 1), Answered(s, v, ladder, wire));
            && Steppable(t) && to < |ladder| && t.base == ladder[to]
            && (if to == at then t == s else InStep(t) && t.wireModel == wire(t.base))
  {
    IndexOfDistinct(ladder, at);
  }

  /** Verdicts in a row climb one rung each and stop at the end of the ladder. */
  lemma {:induction false} VerdictsClimb(s: Session, v: Verdict, ladder: seq<Effort>, wire: Effort -> string,
                                         at: nat, n: nat)
    requires Steppable(s) && !v.Other? && Distinct(ladder) && at < |ladder| && ladder[at] == s.base
    ensures var to := if v.TooWeak? then Min(at + n, |ladder| - 1) else Max(at - n, 0);
            var t := After(s, v, ladder, wire, n);
            && Steppable(t) && t.base == ladder[to]
            && (if to == at then t == s else InStep(t) && t.wireModel == wire(t.base))
  {
    hide Answered, Steppable, InStep;
    if n == 0 {
    } else {
      VerdictsClimb(s, v, ladder, wire, at, n - 1);
      var before := if v.TooWeak? then Min(at + (n - 1), |ladder| - 1) else Max(at - (n - 1), 0);
      OneVerdict(After(s, v, ladder, wire, n - 1), v, ladder, wire, before);
    }
  }

  /** One verdict undoes the other: from any rung but the end it was stepping to, a step and the step back
      leave the session where it was. */
  lemma {:induction false} StepAndBack(s: Session, v: Verdict, back: Verdict, ladder: seq<Effort>,
                                       wire: Effort -> string)
    requires Distinct(ladder) && StepFor(s, v, ladder).Moved?
    requires back == if v.TooWeak? then TooStrong else TooWeak
    ensures var t := Answered(s, v, ladder, wire);
            && StepFor(t, back, ladder) == Moved(s.base)
            && Answered(t, back, ladder, wire) == Written(s, s.base, wire(s.base)).(version := s.version + 2)
  {
    var at := IndexOf(ladder, s.base).value;
    IndexOfDistinct(ladder, if v.TooWeak? then at + 1 else at - 1);
  }

  // --- verdicts while a compaction is on its way -----------------------------------

  /** The session, and for each compaction that is on its way the base effort its request was sent with. */
  datatype Course = Course(session: Session, sent: map<nat, Effort>)

  datatype Event = Judged(verdict: Verdict) | Sends(e: nat) | Accepts(e: nat)

  /** An accepted compaction puts the session back on the base that was read before the request went out. */
  function Folded(s: Session, base: Effort): Session {
    s.(version := s.version + 2, effective := base, expected := base, confirmed := base)
  }

  function Next(w: Course, event: Event, l: Limits): Course {
    match event
    case Judged(v) => w.(session := Answered(w.session, v, Ladder(l), l.wire))
    case Sends(e) => w.(sent := w.sent[e := w.session.base])
    case Accepts(e) =>
      if e in w.sent then Course(Folded(w.session, w.sent[e]), w.sent - {e}) else w
  }

  function Run(w: Course, events: seq<Event>, l: Limits): Course {
    if events == [] then w else Next(Run(w, events[..|events| - 1], l), events[|events| - 1], l)
  }

  /** The session reads the same everywhere after every event. */
  predicate AlwaysInStep(w: Course, events: seq<Event>, l: Limits) {
    InStep(Run(w, events, l).session) && (events != [] ==> AlwaysInStep(w, events[..|events| - 1], l))
  }

  /** A compaction is accepted on the base it was sent with. */
  predicate Fresh(w: Course, event: Event) {
    event.Accepts? && event.e in w.sent ==> w.sent[event.e] == w.session.base
  }

  predicate AllFresh(w: Course, events: seq<Event>, l: Limits) {
    events == [] ||
    (var front, last := events[..|events| - 1], events[|events| - 1];
     AllFresh(w, front, l) && Fresh(Run(w, front, l), last))
  }

  /** Base, effective, expected and confirmed effort agree throughout a run of verdicts and compactions exactly
      when every compaction is accepted on the base effort it was sent with. */
  lemma {:induction false} InStepIff(w: Course, events: seq<Event>, l: Limits)
    requires InStep(w.session)
    ensures AlwaysInStep(w, events, l) <==> AllFresh(w, events, l)
  {
    hide Ladder, StepFor;
    if events == [] {
    } else {
      InStepIff(w, events[..|events| - 1], l);
    }
  }

  // Which verdicts part the base from the rest: positions on the ladder, moved by verdicts alone.

  /** The rung a session stands on after these events, from rung `at` and kept to the ladder's ends. */
  function RungAfter(at: nat, events: seq<Event>, top: nat): nat {
    if events == [] then at
    else
      var (before, last) := (RungAfter(at, events[..|events| - 1], top), events[|events| - 1]);
      if last.Judged? && !last.verdict.Other? then NextRung(last.verdict, before, top) else before
  }

  /** The rung on which compaction `e` was sent, if it is on its way. */
  function SentOn(at: nat, events: seq<Event>, top: nat, e: nat): Option<nat> {
    if events == [] then None
    else
      var (front, last) := (events[..|events| - 1], events[|events| - 1]);
      if last == Sends(e) then Some(RungAfter(at, front, top))
      else if last == Accepts(e) then None
      else SentOn(at, front, top, e)
  }

  /** Whenever a compaction is accepted, the verdicts given since it was sent have brought the session back to
      the rung it was sent on. */
  predicate AllBack(at: nat, events: seq<Event>, top: nat) {
    events == [] ||
    (var front, last := events[..|events| - 1], events[|events| - 1];
     && AllBack(at, front, top)
     && (last.Accepts? && SentOn(at, front, top, last.e).Some? ==>
           SentOn(at, front, top, last.e).value == RungAfter(at, front, top)))
  }

  /** A run's session and the bases its compactions were sent with, in rungs. */
  ghost predicate Tracks(w: Course, ladder: seq<Effort>, at: nat, events: seq<Event>) {
    && at < |ladder|
    && var top := |ladder| - 1;
       && Steppable(w.session) && RungAfter(at, events, top) < |ladder|
       && w.session.base == ladder[RungAfter(at, events, top)]
       && forall e: nat ::
            match SentOn(at, events, top, e)
            case None => e !in w.sent
            case Some(i) => i < |ladder| && e in w.sent && w.sent[e] == ladder[i]
  }

  lemma TracksStep(w: Course, l: Limits, at: nat, events: seq<Event>, event: Event)
    requires l.Valid() && Distinct(Ladder(l)) && Tracks(w, Ladder(l), at, events)
    ensures Tracks(Next(w, event, l), Ladder(l), at, events + [event])
  {
    hide Ladder, StepFor;
    var more, ladder := events + [event], Ladder(l);
    assert more[..|events|] == events && more[|events|] == event;
    var top := |ladder| - 1;
    SentOnStep(at, events, top, event);
    if event.Judged? {
      if event.verdict.Other? {
        OtherKeeps(w.session, ladder);
        assert Next(w, event, l) == w;
        assert RungAfter(at, more, top) == RungAfter(at, events, top);
      } else {
        OneVerdict(w.session, event.verdict, ladder, l.wire, RungAfter(at, events, top));
      }
    }
  }

  lemma SentOnStep(at: nat, events: seq<Event>, top: nat, event: Event)
    ensures forall e: nat ::
      SentOn(at, events + [event], top, e) ==
        (if event == Sends(e) then Some(RungAfter(at, events, top))
         else if event == Accepts(e) then None
         else SentOn(at, events, top, e))
  {
    assert (events + [event])[..|events|] == events;
  }

  lemma OtherKeeps(s: Session, ladder: seq<Effort>)
    ensures StepFor(s, Other, ladder).Refused?
  {}

  lemma {:induction false} RunTracks(s: Session, l: Limits, at: nat, events: seq<Event>)
    requires l.Valid() && Distinct(Ladder(l)) && Steppable(s) && at < |Ladder(l)| && Ladder(l)[at] == s.base
    ensures Tracks(Run(Course(s, map[]), events, l), Ladder(l), at, events)
  {
    hide Next, Ladder, Steppable;
    if events == [] {
    } else {
      var front, last := events[..|events| - 1], events[|events| - 1];
      RunTracks(s, l, at, front);
      assert events == front + [last];
      TracksStep(Run(Course(s, map[]), front, l), l, at, front, last);
    }
  }

  /** A session that may be stepped reads the same everywhere throughout a run exactly when, at every
      acceptance of a compaction, the rungs moved since it was sent come back to the rung it was sent on. */
  lemma {:induction false} InStepByVerdicts(s: Session, l: Limits, at: nat, events: seq<Event>)
    requires l.Valid() && InStep(s) && Steppable(s) && at < |Ladder(l)| && Ladder(l)[at] == s.base
    ensures AlwaysInStep(Course(s, map[]), events, l) <==> AllBack(at, events, |Ladder(l)| - 1)
  {
    hide Ladder;
    LadderIsCut(l);
    InStepIff(Course(s, map[]), events, l);
    FreshIffBack(s, l, at, events);
  }

  lemma {:induction false} FreshIffBack(s: Session, l: Limits, at: nat, events: seq<Event>)
    requires l.Valid() && Distinct(Ladder(l)) && Steppable(s) && at < |Ladder(l)| && Ladder(l)[at] == s.base
    ensures AllFresh(Course(s, map[]), events, l) <==> AllBack(at, events, |Ladder(l)| - 1)
  {
    hide Next, Run, Ladder, Steppable, RungAfter, SentOn;
    if events == [] {
    } else {
      var front := events[..|events| - 1];
      FreshIffBack(s, l, at, front);
      RunTracks(s, l, at, front);
    }
  }

  /** Every other session is never moved by a verdict, and reads the same everywhere throughout. */
  lemma {:induction false} FixedStaysInStep(s: Session, l: Limits, events: seq<Event>)
    requires InStep(s) && (!Steppable(s) || s.base !in Ladder(l))
    ensures AlwaysInStep(Course(s, map[]), events, l)
    ensures var w := Run(Course(s, map[]), events, l);
            && w.session.base == s.base && InStep(w.session) && (!Steppable(w.session) || w.session.base !in Ladder(l))
            && forall e | e in w.sent :: w.sent[e] == s.base
  {
    hide Ladder;
    if events == [] {
    } else {
      FixedStaysInStep(s, l, events[..|events| - 1]);
    }
  }

  /** A step taken while a compaction is on its way, and not taken back, parts the base from the rest. */
  lemma {:induction false} StepDuringCompactionParts(s: Session, v: Verdict, l: Limits)
    requires l.Valid() && InStep(s) && StepFor(s, v, Ladder(l)).Moved?
    ensures !InStep(Run(Course(s, map[]), [Sends(0), Judged(v), Accepts(0)], l).session)
  {
    hide Rank, Ladder;
    StepsToNeighbour(s, v, l);
    var events := [Sends(0), Judged(v), Accepts(0)];
    var start := Course(s, map[]);
    assert events[..2] == [Sends(0), Judged(v)] && events[..2][..1] == [Sends(0)] && events[..2][..1][..0] == [];
    assert Run(start, [Sends(0)], l) == Course(s, map[0 := s.base]) by {
      assert [Sends(0)][..0] == [];
    }
    assert Run(start, [Sends(0), Judged(v)], l) == Course(Answered(s, v, Ladder(l), l.wire), map[0 := s.base]);
    assert StepFor(s, v, Ladder(l)).to != s.base;
  }
}
