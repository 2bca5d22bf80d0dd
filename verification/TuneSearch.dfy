/** The search for routing thresholds: random samples over a grid, then coordinate descent. */
module TuneSearch {
  import opened Prelude

  datatype Field = ConfFloor | ModelCutoff | HardMin | VeryHardMin | HarmThreshold | FaithThreshold

  /** The six searched numbers, and two settings that are carried along unsearched. */
  datatype Ladder = Ladder(confFloor: real, modelCutoff: real, hardMin: real, veryHardMin: real,
                           harmThreshold: real, faithThreshold: real,
                           skipTopNoise: seq<string>, scoreTopMinMass: real)

  const OFF := 1.01

  const FIELDS: seq<Field> := [ConfFloor, ModelCutoff, HardMin, VeryHardMin, HarmThreshold, FaithThreshold]

  function Grid(f: Field): seq<real> {
    match f
    case ConfFloor => [0.0, 0.25, 0.35, 0.4, 0.45, 0.55]
    case ModelCutoff => [1.0, 1.2, 1.4, 1.6, 1.8, 2.0]
    case HardMin => [1.6, 1.8, 2.0, 2.2, 2.4]
    case VeryHardMin => [2.4, 2.6, 2.8, 3.0]
    case HarmThreshold => [0.5, 0.6, 0.7, 0.8, 0.9, OFF]
    case FaithThreshold => [0.5, 0.6, 0.7, 0.8, 0.9, OFF]
  }

  function Get(l: Ladder, f: Field): real {
    match f
    case ConfFloor => l.confFloor
    case ModelCutoff => l.modelCutoff
    case HardMin => l.hardMin
    case VeryHardMin => l.veryHardMin
    case HarmThreshold => l.harmThreshold
    case FaithThreshold => l.faithThreshold
  }

  /** `l` with one searched number replaced. */
  function Replace(l: Ladder, f: Field, v: real): (r: Ladder)
    ensures Get(r, f) == v && forall g | g != f :: Get(r, g) == Get(l, g)
    ensures r.skipTopNoise == l.skipTopNoise && r.scoreTopMinMass == l.scoreTopMinMass
  {
    match f
    case ConfFloor => l.(confFloor := v)
    case ModelCutoff => l.(modelCutoff := v)
    case HardMin => l.(hardMin := v)
    case VeryHardMin => l.(veryHardMin := v)
    case HarmThreshold => l.(harmThreshold := v)
    case FaithThreshold => l.(faithThreshold := v)
  }

  /** `start` with every searched number drawn anew. */
  function Redrawn(start: Ladder, draw: Field -> real): (r: Ladder)
    ensures forall f :: Get(r, f) == draw(f)
    ensures r.skipTopNoise == start.skipTopNoise && r.scoreTopMinMass == start.scoreTopMinMass
  {
    start.(confFloor := draw(ConfFloor), modelCutoff := draw(ModelCutoff), hardMin := draw(HardMin),
           veryHardMin := draw(VeryHardMin), harmThreshold := draw(HarmThreshold),
           faithThreshold := draw(FaithThreshold))
  }

  predicate Sane(l: Ladder) {
    l.modelCutoff <= l.hardMin < l.veryHardMin
  }

  /** Which random choices are thrown away unscored: those in which the model cutoff passes the hard minimum, and the
      one in which the hard minimum meets the very hard one. */
  lemma InsaneDraws(l: Ladder)
    requires forall f :: Get(l, f) in Grid(f)
    ensures !Sane(l) <==>
              || (l.modelCutoff == 1.8 && l.hardMin == 1.6) || (l.modelCutoff == 2.0 && l.hardMin < 2.0)
              || (l.hardMin == 2.4 && l.veryHardMin == 2.4)
  {
    assert Get(l, ModelCutoff) in Grid(ModelCutoff) && Get(l, HardMin) in Grid(HardMin);
    assert Get(l, VeryHardMin) in Grid(VeryHardMin);
  }

  /** What scoring a ladder reports; without weight there are no figures. */
  datatype Metrics =
    | Nothing
    | Figures(n: real, tierCorrect: real, underRouted: real, overRouted: real, meanCost: real)

  datatype Key = Key(cost: real, overRouted: real, missed: real)

  const WORST := Key(1000000000.0, 1000000000.0, 1000000000.0)

  /** The objective: cost with a steep charge beyond the under-routing limit, then over-routing, then misses. */
  function KeyOf(m: Metrics, limit: real, underCost: real): Key {
    if m.Nothing? || m.n == 0.0 then WORST
    else
      var excess := m.underRouted - limit;
      var overLimit := (if excess > 0.0 then excess else 0.0) * 1000.0;
      Key(overLimit + (m.meanCost + underCost * m.underRouted / 100.0), m.overRouted, -m.tierCorrect)
  }

  /** Keys compare as triples do, first difference deciding. */
  predicate Less(a: Key, b: Key) {
    a.cost < b.cost ||
    (a.cost == b.cost && (a.overRouted < b.overRouted || (a.overRouted == b.overRouted && a.missed < b.missed)))
  }

  lemma LessIsStrict(a: Key, b: Key, c: Key)
    ensures !Less(a, a)
    ensures Less(a, b) && Less(b, c) ==> Less(a, c)
    ensures !Less(a, b) && Less(c, b) ==> Less(c, a)
    ensures Less(a, b) && !Less(c, b) ==> Less(a, c)
  {}

  /** What a ladder spends, and by how much it is beyond the under-routing limit. */
  ghost function Spent(m: Metrics, underCost: real): real
    requires m.Figures?
  {
    m.meanCost + m.underRouted * underCost / 100.0
  }

  ghost predicate Within(m: Metrics, limit: real)
    requires m.Figures?
  {
    m.underRouted <= limit
  }

  /** Of two ladders that spend alike, less over-routing is preferred, and then more correct tiers. */
  ghost predicate WinsTie(a: Metrics, b: Metrics)
    requires a.Figures? && b.Figures?
  {
    a.overRouted < b.overRouted || (a.overRouted == b.overRouted && a.tierCorrect > b.tierCorrect)
  }

  /** `a` is cheaper than `b` once `b` is charged `charge`, or as cheap and wins the tie. */
  ghost predicate Cheaper(a: Metrics, b: Metrics, underCost: real, charge: real)
    requires a.Figures? && b.Figures?
  {
    var x, y := Spent(a, underCost), Spent(b, underCost) + charge;
    x < y || (x == y && WinsTie(a, b))
  }

  /** Which of two scored ladders is preferred. Within the limit what is spent decides; a ladder beyond it is charged
      a thousand for each point beyond, so one within it is preferred unless it spends more by that margin; and
      beyond it the points between the two are charged. A ladder without figures is never preferred to one whose
      charged spending stays under a thousand million. */
  lemma PreferredIff(a: Metrics, b: Metrics, limit: real, underCost: real)
    requires a.Figures? && a.n != 0.0
    ensures b.Figures? && b.n != 0.0 ==>
              var preferred := Less(KeyOf(a, limit, underCost), KeyOf(b, limit, underCost));
              && (Within(a, limit) && Within(b, limit) ==> (preferred <==> Cheaper(a, b, underCost, 0.0)))
              && (Within(a, limit) && !Within(b, limit) ==>
                    (preferred <==> Cheaper(a, b, underCost, 1000.0 * (b.underRouted - limit))))
              && (!Within(a, limit) && Within(b, limit) ==>
                    (preferred <==> Cheaper(a, b, underCost, 1000.0 * (limit - a.underRouted))))
              && (!Within(a, limit) && !Within(b, limit) ==>
                    (preferred <==> Cheaper(a, b, underCost, 1000.0 * (b.underRouted - a.underRouted))))
    ensures b.Nothing? || b.n == 0.0 ==>
              var charge := if Within(a, limit) then 0.0 else 1000.0 * (a.underRouted - limit);
              && (Spent(a, underCost) + charge < 1000000000.0 ==>
                    Less(KeyOf(a, limit, underCost), KeyOf(b, limit, underCost)))
              && (Spent(a, underCost) + charge > 1000000000.0 ==>
                    Less(KeyOf(b, limit, underCost), KeyOf(a, limit, underCost)))
  {}

  /** The scorer is any function of the ladder; `limit` and `underCost` are fixed for a search. */
  datatype Problem = Problem(score: Ladder -> Metrics, limit: real, underCost: real) {
    function Measured(l: Ladder): Metrics {
      if Sane(l) then score(l) else Nothing
    }

    function Rate(l: Ladder): Key {
      KeyOf(Measured(l), limit, underCost)
    }
  }

  // ---- The finite box the search moves in ----------------------------------------

  function Options(start: Ladder, f: Field): set<real> {
    (set v | v in Grid(f)) + {Get(start, f)}
  }

  predicate InBox(start: Ladder, l: Ladder) {
    && (forall f :: Get(l, f) in Options(start, f))
    && l.skipTopNoise == start.skipTopNoise && l.scoreTopMinMass == start.scoreTopMinMass
  }

  /** All the ladders that take each searched number from the grid or from the start. */
  ghost function Box(start: Ladder): set<Ladder> {
    set a, b, c, d, e, g |
      a in Options(start, ConfFloor) && b in Options(start, ModelCutoff) && c in Options(start, HardMin) &&
      d in Options(start, VeryHardMin) && e in Options(start, HarmThreshold) && g in Options(start, FaithThreshold) ::
      Ladder(a, b, c, d, e, g, start.skipTopNoise, start.scoreTopMinMass)
  }

  lemma {:induction false} BoxHolds(start: Ladder, l: Ladder)
    ensures l in Box(start) <==> InBox(start, l)
  {
    hide Options;
    if InBox(start, l) {
      assert Get(l, ConfFloor) in Options(start, ConfFloor) && Get(l, ModelCutoff) in Options(start, ModelCutoff);
      assert Get(l, HardMin) in Options(start, HardMin) && Get(l, VeryHardMin) in Options(start, VeryHardMin);
      assert Get(l, HarmThreshold) in Options(start, HarmThreshold);
      assert Get(l, FaithThreshold) in Options(start, FaithThreshold);
      assert l == Ladder(l.confFloor, l.modelCutoff, l.hardMin, l.veryHardMin, l.harmThreshold, l.faithThreshold,
                         start.skipTopNoise, start.scoreTopMinMass);
    }
  }

  ghost function Better(p: Problem, start: Ladder, k: Key): set<Ladder> {
    set l | l in Box(start) && Less(p.Rate(l), k)
  }

  /** Each improvement leaves strictly fewer ladders that would improve further. */
  lemma ImprovingShrinks(p: Problem, start: Ladder, better: Ladder, k: Key)
    requires InBox(start, better) && Less(p.Rate(better), k)
    ensures Better(p, start, p.Rate(better)) < Better(p, start, k)
  {
    forall l | l in Better(p, start, p.Rate(better)) ensures l in Better(p, start, k) {
      LessIsStrict(p.Rate(l), p.Rate(better), k);
    }
    LessIsStrict(p.Rate(better), k, k);
    BoxHolds(start, better);
    assert better in Better(p, start, k) && better !in Better(p, start, p.Rate(better));
  }

  /** Setting `f` to `v` would give a sane ladder with a better key. */
  predicate Improves(p: Problem, l: Ladder, f: Field, v: real) {
    Sane(Replace(l, f, v)) && Less(p.Rate(Replace(l, f, v)), p.Rate(l))
  }

  lemma ReplaceStaysInBox(start: Ladder, l: Ladder, f: Field, v: real)
    requires InBox(start, l) && v in Grid(f)
    ensures InBox(start, Replace(l, f, v))
  {}

  /** `l` was tried against `best`: it is not sane or no better. */
  predicate NoBetter(p: Problem, best: Ladder, l: Ladder) {
    Sane(l) ==> !Less(p.Rate(l), p.Rate(best))
  }

  /** `best` is `from` itself or a sane ladder that beats it. */
  predicate Found(p: Problem, from: Ladder, best: Ladder) {
    best == from || (Sane(best) && Less(p.Rate(best), p.Rate(from)))
  }

  /** No sane change of one searched number to a grid value improves `l`. */
  predicate Polished(p: Problem, l: Ladder) {
    forall f, v | v in Grid(f) :: !Improves(p, l, f, v)
  }

  /** As `Polished`, for the first `n` fields alone. */
  predicate PolishedUpTo(p: Problem, l: Ladder, n: nat)
    requires n <= |FIELDS|
  {
    forall j, v | 0 <= j < n && v in Grid(FIELDS[j]) :: !Improves(p, l, FIELDS[j], v)
  }

  lemma AllFieldsPolished(p: Problem, l: Ladder)
    requires PolishedUpTo(p, l, |FIELDS|)
    ensures Polished(p, l)
  {
    hide Grid, Improves;
    forall f, v | v in Grid(f) ensures !Improves(p, l, f, v) {
      var j := match f
        case ConfFloor => 0
        case ModelCutoff => 1
        case HardMin => 2
        case VeryHardMin => 3
        case HarmThreshold => 4
        case FaithThreshold => 5;
      assert FIELDS[j] == f;
    }
  }

  lemma FoundStep(p: Problem, from: Ladder, best: Ladder, next: Ladder)
    requires Found(p, from, best) && Sane(next) && Less(p.Rate(next), p.Rate(best))
    ensures Found(p, from, next)
  {
    LessIsStrict(p.Rate(next), p.Rate(best), p.Rate(from));
  }

  lemma FoundIsNoWorse(p: Problem, from: Ladder, best: Ladder)
    requires Found(p, from, best)
    ensures !Less(p.Rate(from), p.Rate(best)) && (Sane(from) ==> Sane(best))
  {
    LessIsStrict(p.Rate(from), p.Rate(best), p.Rate(from));
    LessIsStrict(p.Rate(from), p.Rate(from), p.Rate(from));
  }

  lemma StaysNoBetter(p: Problem, best: Ladder, next: Ladder, l: Ladder)
    requires NoBetter(p, best, l) && Less(p.Rate(next), p.Rate(best))
    ensures NoBetter(p, next, l)
  {
    LessIsStrict(p.Rate(l), p.Rate(next), p.Rate(best));
  }

  lemma DrawsStayInBox(start: Ladder, draw: Field -> real)
    requires forall f :: draw(f) in Grid(f)
    ensures InBox(start, Redrawn(start, draw))
  {}

  /** The memo shared by both phases of a search. */
  class Tuner {
    const p: Problem
    var cache: map<Ladder, Metrics>
    ghost var scored: seq<Ladder>

    /** The memo tells the truth, and each sane ladder was handed to the scorer at most once. */
    ghost predicate Valid()
      reads this
    {
      && (forall l | l in cache :: cache[l] == p.Measured(l))
      && Distinct(scored) && (forall l | l in scored :: l in cache && Sane(l))
    }

    constructor (p: Problem)
      ensures Valid() && this.p == p && cache == map[]
    {
      this.p := p;
      cache := map[];
      scored := [];
    }

    method Measure(l: Ladder) returns (m: Metrics)
      requires Valid()
      modifies this
      ensures Valid() && m == p.Measured(l) && cache == old(cache)[l := m]
      ensures m == if l.modelCutoff <= l.hardMin < l.veryHardMin then p.score(l) else Nothing
      ensures scored == old(scored) + if l !in old(cache) && Sane(l) then [l] else []
    {
      if l !in cache {
        if Sane(l) {
          scored := scored + [l];
          cache := cache[l := p.score(l)];
        } else {
          cache := cache[l := Nothing];
        }
      }
      m := cache[l];
    }

    /** The best ladder found from `start`. Each of `draws` is one random choice of the searched numbers. */
    method Search(start: Ladder, draws: seq<Field -> real>) returns (best: Ladder, bestMetrics: Metrics)
      requires Valid()
      requires forall i, f | 0 <= i < |draws| :: draws[i](f) in Grid(f)
      modifies this
      ensures Valid() && bestMetrics == p.Measured(best) && InBox(start, best)
      ensures Found(p, start, best) && !Less(p.Rate(start), p.Rate(best)) && (Sane(start) ==> Sane(best))
      ensures forall i | 0 <= i < |draws| :: NoBetter(p, best, Redrawn(start, draws[i]))
      ensures Polished(p, best)
    {
      hide KeyOf, Less, Sane, Grid, Found, NoBetter, Polished, InBox, Redrawn;
      best, bestMetrics := Sample(start, draws);
      ghost var sampled := best;
      best, bestMetrics := Descend(start, best, bestMetrics);
      Carry(p, start, draws, sampled, best);
      FoundIsNoWorse(p, start, best);
    }

    /** First phase: keep the best of the sane draws. */
    method Sample(start: Ladder, draws: seq<Field -> real>) returns (best: Ladder, bestMetrics: Metrics)
      requires Valid()
      requires forall i, f | 0 <= i < |draws| :: draws[i](f) in Grid(f)
      modifies this
      ensures Valid() && bestMetrics == p.Measured(best) && InBox(start, best) && Found(p, start, best)
      ensures forall i | 0 <= i < |draws| :: NoBetter(p, best, Redrawn(start, draws[i]))
    {
      hide KeyOf, Less, Sane, Grid, Redrawn;
      bestMetrics := Measure(start);
      best := start;
      for i := 0 to |draws|
        invariant Valid() && bestMetrics == p.Measured(best) && InBox(start, best) && Found(p, start, best)
        invariant forall j | 0 <= j < i :: NoBetter(p, best, Redrawn(start, draws[j]))
      {
        var cand := Redrawn(start, draws[i]);
        if !Sane(cand) {
          continue;
        }
        var m := Measure(cand);
        if Less(KeyOf(m, p.limit, p.underCost), KeyOf(bestMetrics, p.limit, p.underCost)) {
          FoundStep(p, start, best, cand);
          DrawsStayInBox(start, draws[i]);
          forall j | 0 <= j < i ensures NoBetter(p, cand, Redrawn(start, draws[j])) {
            StaysNoBetter(p, best, cand, Redrawn(start, draws[j]));
          }
          LessIsStrict(p.Rate(cand), p.Rate(cand), p.Rate(cand));
          best, bestMetrics := cand, m;
        }
      }
    }

    /** Second phase: change one number at a time until a whole round improves nothing. It ends because each
        improvement leaves fewer ladders of the box that would improve further. */
    method Descend(start: Ladder, from: Ladder, fromMetrics: Metrics) returns (best: Ladder, bestMetrics: Metrics)
      requires Valid() && InBox(start, from) && fromMetrics == p.Measured(from)
      modifies this
      ensures Valid() && bestMetrics == p.Measured(best) && InBox(start, best)
      ensures Found(p, from, best) && Polished(p, best)
    {
      hide KeyOf, Less, Sane, Grid, InBox, Replace, Polished, Better, Improves;
      best, bestMetrics := from, fromMetrics;
      var improved := true;
      while improved
        invariant Valid() && bestMetrics == p.Measured(best) && InBox(start, best) && Found(p, from, best)
        invariant !improved ==> Polished(p, best)
        decreases Better(p, start, p.Rate(best)), improved
      {
        ghost var entry := best;
        improved := false;
        for i := 0 to |FIELDS|
          invariant Valid() && bestMetrics == p.Measured(best) && InBox(start, best) && Found(p, from, best)
          invariant if improved then Less(p.Rate(best), p.Rate(entry)) else best == entry
          invariant !improved ==> PolishedUpTo(p, best, i)
        {
          best, bestMetrics, improved := Polish(start, from, entry, FIELDS[i], best, bestMetrics, improved);
        }
        if improved {
          ImprovingShrinks(p, start, best, p.Rate(entry));
        } else {
          AllFieldsPolished(p, best);
        }
      }
    }

    /** Try every grid value of one field. */
    method Polish(start: Ladder, ghost from: Ladder, ghost entry: Ladder, f: Field,
                  before: Ladder, beforeMetrics: Metrics, improvedBefore: bool)
      returns (best: Ladder, bestMetrics: Metrics, improved: bool)
      requires Valid() && beforeMetrics == p.Measured(before) && InBox(start, before) && Found(p, from, before)
      requires if improvedBefore then Less(p.Rate(before), p.Rate(entry)) else before == entry
      modifies this
      ensures Valid() && bestMetrics == p.Measured(best) && InBox(start, best) && Found(p, from, best)
      ensures if improved then Less(p.Rate(best), p.Rate(entry)) else best == entry
      ensures !improved ==> !improvedBefore && forall v | v in Grid(f) :: !Improves(p, best, f, v)
    {
      hide KeyOf, Less, Sane, Grid, InBox, Replace, Found;
      best, bestMetrics, improved := before, beforeMetrics, improvedBefore;
      for k := 0 to |Grid(f)|
        invariant Valid() && bestMetrics == p.Measured(best) && InBox(start, best) && Found(p, from, best)
        invariant if improved then Less(p.Rate(best), p.Rate(entry)) else best == entry
        invariant !improved ==> !improvedBefore && forall j | 0 <= j < k :: !Improves(p, best, f, Grid(f)[j])
      {
        var cand := Replace(best, f, Grid(f)[k]);
        if !Sane(cand) {
          continue;
        }
        var m := Measure(cand);
        if Less(KeyOf(m, p.limit, p.underCost), KeyOf(bestMetrics, p.limit, p.underCost)) {
          FoundStep(p, from, best, cand);
          ReplaceStaysInBox(start, best, f, Grid(f)[k]);
          LessIsStrict(p.Rate(cand), p.Rate(best), p.Rate(entry));
          best, bestMetrics, improved := cand, m, true;
        }
      }
    }
  }

  /** What the first phase found stays beaten or matched through the second. */
  lemma Carry(p: Problem, start: Ladder, draws: seq<Field -> real>, sampled: Ladder, best: Ladder)
    requires Found(p, start, sampled) && Found(p, sampled, best)
    requires forall i | 0 <= i < |draws| :: NoBetter(p, sampled, Redrawn(start, draws[i]))
    ensures Found(p, start, best)
    ensures forall i | 0 <= i < |draws| :: NoBetter(p, best, Redrawn(start, draws[i]))
  {
    hide NoBetter, Redrawn, Less, Sane;
    if best != sampled {
      FoundStep(p, start, sampled, best);
      forall i | 0 <= i < |draws| ensures NoBetter(p, best, Redrawn(start, draws[i])) {
        StaysNoBetter(p, sampled, best, Redrawn(start, draws[i]));
      }
    }
  }
}
