/** Forwarding an alias: try the plan in order until an entry serves. */
module Fallback {
  import opened Prelude

  datatype Entry = Entry(model: string, effort: Option<string>, provider: string)

  /** What one attempt comes back with. */
  datatype Reply = TransportError(kind: string) | Status(code: nat)

  /** What would happen at each entry of a plan: its breaker, and its attempt. */
  datatype Weather = Weather(open: seq<bool>, replies: seq<Reply>)

  datatype Failure =
    | BreakerOpen(model: string)
    | Broke(model: string, kind: string)
    | Answered(model: string, code: nat)

  /** What the provider's breaker is told. */
  datatype Report = Failed(index: nat) | Succeeded(index: nat)

  datatype Outcome = Outcome(index: nat, code: nat, accepted: bool, reasons: seq<Failure>)

  predicate Retryable(code: nat) { code == 429 || code >= 500 }

  predicate Fits(plan: seq<Entry>, w: Weather) { |w.open| == |w.replies| == |plan| }

  // --- the reference: first success, else the last ---------------------------

  /** A reply that is the answer, good or bad: anything that came back but 429 and the 500s and up. */
  predicate Final(reply: Reply) { reply.Status? && reply.code != 429 && reply.code < 500 }

  /** What makes the loop go on: an open breaker, no reply, too many requests, or a fault of the server. */
  predicate PassedOver(w: Weather, i: nat)
    requires i < |w.open| == |w.replies|
  {
    w.open[i] || w.replies[i].TransportError? || w.replies[i].code == 429 || w.replies[i].code >= 500
  }

  /** Why entry `i` was passed over, and how the last entry failed if it did. */
  function WhyNot(plan: seq<Entry>, w: Weather, i: nat): Failure
    requires i < |plan| && Fits(plan, w)
  {
    if w.open[i] && i < |plan| - 1 then BreakerOpen(plan[i].model)
    else
      match w.replies[i]
      case TransportError(kind) => Broke(plan[i].model, kind)
      case Status(code) => Answered(plan[i].model, code)
  }

  // --- the loop --------------------------------------------------------------

  class Forwarder {
    var tried: seq<nat>
    var closed: seq<nat>
    var reports: seq<Report>

    constructor ()
      ensures tried == [] && closed == [] && reports == []
    {
      tried, closed, reports := [], [], [];
    }

    /** Serve from the least entry that is last in the plan or not passed over.
        Every earlier entry is named once, in order; it was skipped or tried once; and every
        reply that was abandoned has been closed. An empty plan has nothing to serve. */
    method Forward(plan: seq<Entry>, w: Weather) returns (r: Option<Outcome>)
      requires Fits(plan, w)
      requires tried == [] && closed == [] && reports == []
      modifies this
      ensures r.None? <==> plan == []
      ensures r.Some? ==>
                var k := r.value.index;
                && k < |plan| && k == Server(plan, w, 0)
                && (k == |plan| - 1 || !PassedOver(w, k))
                && (forall i | 0 <= i < k :: PassedOver(w, i))
                && |r.value.reasons| == (if Final(w.replies[k]) then k else k + 1)
                && (forall i | 0 <= i < |r.value.reasons| :: r.value.reasons[i] == WhyNot(plan, w, i))
                && tried == Tried(plan, w, k + 1)
                && closed == Abandoned(plan, w, k)
                && reports == Reports(plan, w, k + 1)
                && r.value.code == (if w.replies[k].Status? then w.replies[k].code else 502)
                && (r.value.accepted <==> w.replies[k].Status? && 200 <= w.replies[k].code < 300)
    {
      r := None;
      var failures: seq<Failure> := [];
      for index := 0 to |plan|
        invariant index == 0 || index < |plan|
        invariant forall i | 0 <= i < index :: PassedOver(w, i)
        invariant |failures| == index
        invariant forall i | 0 <= i < index :: failures[i] == WhyNot(plan, w, i)
        invariant tried == Tried(plan, w, index)
        invariant closed == Abandoned(plan, w, index)
        invariant reports == Reports(plan, w, index)
        invariant r == None
      {
        var entry, last := plan[index], index == |plan| - 1;
        var why := failures;
        if w.open[index] && !last {
          failures := failures + [BreakerOpen(entry.model)];
          continue;
        }
        // On the last entry an open breaker is served through: nothing else is left.
        tried := tried + [index];
        match w.replies[index] {
          case TransportError(kind) =>
            reports := reports + [Failed(index)];
            failures := failures + [Broke(entry.model, kind)];
            if last {
              OnlyServer(plan, w, 0, index);
              return Some(Outcome(index, 502, false, failures));
            }
          case Status(code) =>
            if Retryable(code) {
              reports := reports + [Failed(index)];
              failures := failures + [Answered(entry.model, code)];
              if !last {
                closed := closed + [index];
                continue;
              }
              why := failures;
            } else {
              reports := reports + [Succeeded(index)];
            }
            OnlyServer(plan, w, 0, index);
            return Some(Outcome(index, code, 200 <= code < 300, why));
        }
      }
    }
  }

  predicate Attempted(plan: seq<Entry>, w: Weather, i: nat)
    requires i < |plan| && Fits(plan, w)
  {
    !w.open[i] || i == |plan| - 1
  }

  /** The entries among the first `n` that were tried, in order. */
  function Tried(plan: seq<Entry>, w: Weather, n: nat): seq<nat>
    requires n <= |plan| && Fits(plan, w)
  {
    if n == 0 then [] else Tried(plan, w, n - 1) + (if Attempted(plan, w, n - 1) then [n - 1] else [])
  }

  /** The entries among the first `n` whose reply was received and then given up. */
  function Abandoned(plan: seq<Entry>, w: Weather, n: nat): seq<nat>
    requires n <= |plan| && Fits(plan, w)
  {
    if n == 0 then []
    else Abandoned(plan, w, n - 1) + (if Attempted(plan, w, n - 1) && w.replies[n - 1].Status? then [n - 1] else [])
  }

  function Reports(plan: seq<Entry>, w: Weather, n: nat): seq<Report>
    requires n <= |plan| && Fits(plan, w)
  {
    if n == 0 then []
    else
      var i := n - 1;
      Reports(plan, w, i)
      + if !Attempted(plan, w, i) then []
        else if Final(w.replies[i]) then [Succeeded(i)]
        else [Failed(i)]
  }

  /** A tried entry is tried once, in plan order, and an entry is tried exactly when its breaker
      let it or it is the last one left. */
  lemma {:induction false} TriedOnce(plan: seq<Entry>, w: Weather, n: nat)
    requires n <= |plan| && Fits(plan, w)
    ensures var t := Tried(plan, w, n);
            && (forall i :: i in t <==> 0 <= i < n && (w.open[i] ==> i + 1 == |plan|))
            && (forall i, j | 0 <= i < j < |t| :: t[i] < t[j])
  {
    if n > 0 {
      TriedOnce(plan, w, n - 1);
      var t := Tried(plan, w, n - 1);
      assert forall i | 0 <= i < |t| :: t[i] in t;
    }
  }

  /** Every reply received before the serving entry is closed, and nothing else is. */
  lemma {:induction false} AbandonedAreReceived(plan: seq<Entry>, w: Weather, n: nat)
    requires n <= |plan| && Fits(plan, w)
    ensures forall i :: i in Abandoned(plan, w, n) <==>
              0 <= i < n && (w.open[i] ==> i + 1 == |plan|) && w.replies[i].Status?
    ensures multiset(Abandoned(plan, w, n)) <= multiset(Tried(plan, w, n))
  {
    if n > 0 {
      AbandonedAreReceived(plan, w, n - 1);
    }
  }

  /** A breaker hears about each tried entry once, in the order of the tries: of a success where the reply was
      neither 429 nor 500 and up, of a failure where it was or where none came. */
  lemma {:induction false} ReportsFollowTries(plan: seq<Entry>, w: Weather, n: nat)
    requires n <= |plan| && Fits(plan, w)
    ensures var (reports, tried) := (Reports(plan, w, n), Tried(plan, w, n));
            && |reports| == |tried|
            && forall j | 0 <= j < |tried| ::
                 var i := tried[j];
                 && i < n && reports[j].index == i
                 && (reports[j].Failed? <==>
                       w.replies[i].TransportError? || w.replies[i].code == 429 || w.replies[i].code >= 500)
  {
    if n > 0 {
      ReportsFollowTries(plan, w, n - 1);
    }
  }

  /** Why an entry was passed over: an open breaker that was heeded, which the last entry's is not, else what came
      of the try. */
  lemma ReasonIff(plan: seq<Entry>, w: Weather, i: nat)
    requires i < |plan| && Fits(plan, w)
    ensures var why := WhyNot(plan, w, i);
            && why.model == plan[i].model
            && (why.BreakerOpen? <==> w.open[i] && i + 1 < |plan|)
            && (why.Broke? ==> w.replies[i] == TransportError(why.kind))
            && (why.Answered? ==> w.replies[i] == Status(why.code))
  {}

  /** The reference: the entry a plan is served from. */
  function Server(plan: seq<Entry>, w: Weather, from: nat): (k: nat)
    requires from < |plan| && Fits(plan, w)
    ensures from <= k < |plan| && (k == |plan| - 1 || !PassedOver(w, k))
    ensures forall i | from <= i < k :: PassedOver(w, i)
    decreases |plan| - from
  {
    if from == |plan| - 1 || !PassedOver(w, from) then from else Server(plan, w, from + 1)
  }

  lemma {:induction false} OnlyServer(plan: seq<Entry>, w: Weather, from: nat, k: nat)
    requires from <= k < |plan| && Fits(plan, w)
    requires k == |plan| - 1 || !PassedOver(w, k)
    requires forall i | from <= i < k :: PassedOver(w, i)
    ensures Server(plan, w, from) == k
    decreases |plan| - from
  {
    if from < k {
      OnlyServer(plan, w, from + 1, k);
    }
  }

  /** Two plans that agree up to the serving entry are served the same way: what lies behind it
      is never looked at. */
  lemma {:induction false} RestIsNeverLookedAt(plan: seq<Entry>, w: Weather, longer: seq<Entry>, v: Weather, from: nat)
    requires from < |plan| <= |longer| && Fits(plan, w) && Fits(longer, v)
    requires !PassedOver(w, Server(plan, w, from))
    requires forall i | from <= i <= Server(plan, w, from) :: v.open[i] == w.open[i] && v.replies[i] == w.replies[i]
    ensures Server(longer, v, from) == Server(plan, w, from)
    decreases |plan| - from
  {
    if Server(plan, w, from) != from {
      RestIsNeverLookedAt(plan, w, longer, v, from + 1);
    }
  }
}
