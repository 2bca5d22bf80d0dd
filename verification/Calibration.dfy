/** Expected calibration error over (confidence, was-correct) pairs, on exact reals. */
module Calibration {
  import opened Arithmetic
  import opened Prelude

  datatype Answer = Answer(confidence: Option<real>, correct: Option<bool>)

  /** An answer both parts of which are known. */
  datatype Judged = Judged(confidence: real, ok: bool)

  datatype Bin = Bin(lo: real, hi: real)

  /** One table row; accuracy and signed gap in percent. */
  datatype Row = Row(bin: Bin, n: nat, confidence: real, accuracy: real, gap: real)

  datatype Report = Report(ece: real, mce: real, confidence: real, accuracy: real, n: nat, rows: seq<Row>)

  const DEFAULT_BINS: seq<Bin> :=
    [Bin(0.0, 0.5), Bin(0.5, 0.7), Bin(0.7, 0.8), Bin(0.8, 0.9), Bin(0.9, 0.95), Bin(0.95, 1.01)]

  predicate Holds(b: Bin, x: real) {
    b.lo <= x < b.hi
  }

  predicate Known(a: Answer) {
    a.confidence.Some? && a.correct.Some?
  }

  function Clean(answers: seq<Answer>): seq<Judged> {
    if answers == [] then []
    else (if Known(answers[0]) then [Judged(answers[0].confidence.value, answers[0].correct.value)] else [])
         + Clean(answers[1..])
  }

  function Bucket(clean: seq<Judged>, b: Bin): (r: seq<Judged>)
    ensures forall x | x in r :: x in clean && Holds(b, x.confidence)
  {
    if clean == [] then []
    else (if Holds(b, clean[0].confidence) then [clean[0]] else []) + Bucket(clean[1..], b)
  }

  function Confidences(s: seq<Judged>): real {
    if s == [] then 0.0 else s[0].confidence + Confidences(s[1..])
  }

  function Correct(s: seq<Judged>): (n: nat)
    ensures n <= |s|
  {
    if s == [] then 0 else (if s[0].ok then 1 else 0) + Correct(s[1..])
  }

  function MeanConfidence(s: seq<Judged>): real
    requires s != []
  {
    Confidences(s) / |s| as real
  }

  function Accuracy(s: seq<Judged>): real
    requires s != []
  {
    Correct(s) as real / |s| as real
  }

  function Abs(x: real): real { if x < 0.0 then -x else x }

  /** How many bins hold `x`. */
  function Holders(bins: seq<Bin>, x: real): nat {
    if bins == [] then 0 else Holders(bins[..|bins| - 1], x) + if Holds(bins[|bins| - 1], x) then 1 else 0
  }

  /** Every confidence lies on the unit scale. */
  predicate OnScale(s: seq<Judged>) {
    forall i | 0 <= i < |s| :: 0.0 <= s[i].confidence <= 1.0
  }

  /** Every confidence falls in exactly one bin. */
  predicate OneBinEach(bins: seq<Bin>, s: seq<Judged>) {
    forall i | 0 <= i < |s| :: Holders(bins, s[i].confidence) == 1
  }

  /** The default bins hold each number from 0 up to 1.01 exactly once, and no other at all. */
  lemma DefaultBinsPartition(x: real)
    ensures Holders(DEFAULT_BINS, x) == if 0.0 <= x < 1.01 then 1 else 0
  {
    var b := DEFAULT_BINS;
    assert b[..6] == b && b[..6][..5] == b[..5] && b[..5][..4] == b[..4] && b[..4][..3] == b[..3];
    assert b[..3][..2] == b[..2] && b[..2][..1] == b[..1] && b[..1][..0] == [];
    assert Holders(b[..3], x) == if 0.0 <= x < 0.8 then 1 else 0 by {
      assert Holders(b[..1], x) == if 0.0 <= x < 0.5 then 1 else 0;
      assert Holders(b[..2], x) == if 0.0 <= x < 0.7 then 1 else 0;
    }
    assert Holders(b[..5], x) == if 0.0 <= x < 0.95 then 1 else 0 by {
      assert Holders(b[..4], x) == if 0.0 <= x < 0.9 then 1 else 0;
    }
  }

  // ---- The figures, bin by bin --------------------------------------------------

  function Counted(bins: seq<Bin>, s: seq<Judged>): nat {
    if bins == [] then 0 else Counted(bins[..|bins| - 1], s) + |Bucket(s, bins[|bins| - 1])|
  }

  function ConfidenceIn(bins: seq<Bin>, s: seq<Judged>): real {
    if bins == [] then 0.0 else ConfidenceIn(bins[..|bins| - 1], s) + Confidences(Bucket(s, bins[|bins| - 1]))
  }

  function CorrectIn(bins: seq<Bin>, s: seq<Judged>): nat {
    if bins == [] then 0 else CorrectIn(bins[..|bins| - 1], s) + Correct(Bucket(s, bins[|bins| - 1]))
  }

  /** The distance between mean confidence and accuracy in one bin; an empty bin has none. */
  function Gap(s: seq<Judged>): real {
    if s == [] then 0.0 else Abs(MeanConfidence(s) - Accuracy(s))
  }

  /** The count-weighted mean of the gaps. */
  function Ece(bins: seq<Bin>, s: seq<Judged>): real
    requires s != []
  {
    if bins == [] then 0.0
    else
      var bucket := Bucket(s, bins[|bins| - 1]);
      Ece(bins[..|bins| - 1], s) + |bucket| as real / |s| as real * Gap(bucket)
  }

  /** The largest gap. */
  function Mce(bins: seq<Bin>, s: seq<Judged>): (m: real)
    ensures m >= 0.0
  {
    if bins == [] then 0.0
    else
      var (m, g) := (Mce(bins[..|bins| - 1], s), Gap(Bucket(s, bins[|bins| - 1])));
      if m < g then g else m
  }

  function Rows(bins: seq<Bin>, s: seq<Judged>): seq<Row> {
    if bins == [] then []
    else
      var (bin, bucket) := (bins[|bins| - 1], Bucket(s, bins[|bins| - 1]));
      Rows(bins[..|bins| - 1], s) +
      if bucket == [] then []
      else
        [Row(bin, |bucket|, MeanConfidence(bucket), 100.0 * Accuracy(bucket),
             100.0 * (MeanConfidence(bucket) - Accuracy(bucket)))]
  }

  /** The table: one row for each bin that holds an answer, in the order of the bins. A row counts the answers in its
      bin, their mean confidence and the share of right ones in percent; its gap is the first in percent less the
      second, and so positive where confidence claims more than it delivers. */
  lemma {:induction false} RowsByBin(bins: seq<Bin>, s: seq<Judged>)
    ensures forall row | row in Rows(bins, s) ::
              var bucket := Bucket(s, row.bin);
              && row.bin in bins && row.n == |bucket| > 0
              && row.confidence * row.n as real == Confidences(bucket)
              && row.accuracy * row.n as real == (100 * Correct(bucket)) as real
              && row.gap == 100.0 * row.confidence - row.accuracy
    ensures forall front, last: Bin | bins == front + [last] ::
              Bucket(s, last) == [] <==> Rows(bins, s) == Rows(front, s)
  {
    hide Bucket, Confidences, Correct;
    if bins != [] {
      RowsByBin(bins[..|bins| - 1], s);
      var bucket := Bucket(s, bins[|bins| - 1]);
      if bucket != [] {
        Cancel(Confidences(bucket), |bucket| as real);
        Cancel(Correct(bucket) as real, |bucket| as real);
      }
    }
  }

  /** The answers both parts of which are known. */
  ghost function KnownPlaces(answers: seq<Answer>): set<nat> {
    set i: nat | i < |answers| && answers[i].confidence.Some? && answers[i].correct.Some?
  }

  /** Those of them that are right. */
  ghost function RightPlaces(answers: seq<Answer>): set<nat> {
    set i: nat | i < |answers| && answers[i].confidence.Some? && answers[i].correct == Some(true)
  }

  /** The answers that count are those both parts of which are known. */
  lemma {:induction false} CleanIsKnown(answers: seq<Answer>)
    ensures |Clean(answers)| == |KnownPlaces(answers)| && Correct(Clean(answers)) == |RightPlaces(answers)|
  {
    if answers == [] {
    } else {
      var rest := answers[1..];
      CleanIsKnown(rest);
      OneInFront(KnownPlaces(answers), KnownPlaces(rest));
      OneInFront(RightPlaces(answers), RightPlaces(rest));
      if Known(answers[0]) {
        assert Clean(answers)[1..] == Clean(rest);
      } else {
        assert Clean(answers) == Clean(rest);
      }
    }
  }

  lemma ShareOfKnown(answers: seq<Answer>)
    ensures var s := Clean(answers);
            && |s| == |KnownPlaces(answers)|
            && (if s == [] then |RightPlaces(answers)| == 0
                else Accuracy(s) * |s| as real == |RightPlaces(answers)| as real)
  {
    hide Correct, KnownPlaces, RightPlaces;
    CleanIsKnown(answers);
    var s := Clean(answers);
    if s != [] {
      Cancel(Correct(s) as real, |s| as real);
    }
  }

  method Calibrate(answers: seq<Answer>, bins: seq<Bin>) returns (r: Report)
    ensures Clean(answers) == [] ==> r == Report(0.0, 0.0, 0.0, 0.0, 0, [])
    ensures var s := Clean(answers);
            s != [] ==> r == Report(Ece(bins, s), Mce(bins, s), MeanConfidence(s), Accuracy(s), |s|, Rows(bins, s))
    ensures r.n == |KnownPlaces(answers)| && r.accuracy * r.n as real == |RightPlaces(answers)| as real
  {
    hide Bucket, Confidences, Correct, MeanConfidence, Accuracy, Abs, Clean, KnownPlaces, RightPlaces;
    var clean := Clean(answers);
    ShareOfKnown(answers);
    if clean == [] {
      return Report(0.0, 0.0, 0.0, 0.0, 0, []);
    }
    var total := |clean|;
    var ece, mce, rows := 0.0, 0.0, [];
    for i := 0 to |bins|
      invariant ece == Ece(bins[..i], clean) && mce == Mce(bins[..i], clean) && rows == Rows(bins[..i], clean)
    {
      assert bins[..i + 1][..i] == bins[..i];
      var bucket := Bucket(clean, bins[i]);
      if bucket == [] {
        continue;
      }
      var conf := MeanConfidence(bucket);
      var acc := Accuracy(bucket);
      var gap := Abs(conf - acc);
      ece := ece + |bucket| as real / total as real * gap;
      mce := if mce < gap then gap else mce;
      rows := rows + [Row(bins[i], |bucket|, conf, 100.0 * acc, 100.0 * (conf - acc))];
    }
    assert bins[..|bins|] == bins;
    return Report(ece, mce, MeanConfidence(clean), Accuracy(clean), total, rows);
  }

  // ---- The chain ----------------------------------------------------------------

  /** One more answer, held by at most one bin, adds itself there or nowhere. */
  lemma {:induction false} OneMore(bins: seq<Bin>, x: Judged, s: seq<Judged>)
    requires Holders(bins, x.confidence) <= 1
    ensures Counted(bins, [x] + s) == Holders(bins, x.confidence) + Counted(bins, s)
    ensures ConfidenceIn(bins, [x] + s) ==
            (if Holders(bins, x.confidence) == 1 then x.confidence else 0.0) + ConfidenceIn(bins, s)
    ensures CorrectIn(bins, [x] + s) ==
            (if Holders(bins, x.confidence) == 1 && x.ok then 1 else 0) + CorrectIn(bins, s)
  {
    hide Bucket, Confidences, Correct, Holds;
    if bins == [] {
    } else {
      OneMore(bins[..|bins| - 1], x, s);
      OneMoreInBin(bins[|bins| - 1], x, s);
    }
  }

  lemma OneMoreInBin(b: Bin, x: Judged, s: seq<Judged>)
    ensures |Bucket([x] + s, b)| == (if Holds(b, x.confidence) then 1 else 0) + |Bucket(s, b)|
    ensures Confidences(Bucket([x] + s, b)) ==
            (if Holds(b, x.confidence) then x.confidence else 0.0) + Confidences(Bucket(s, b))
    ensures Correct(Bucket([x] + s, b)) == (if Holds(b, x.confidence) && x.ok then 1 else 0) + Correct(Bucket(s, b))
  {
    hide Holds;
    assert ([x] + s)[1..] == s;
    var rest := Bucket(s, b);
    if Holds(b, x.confidence) {
      assert Bucket([x] + s, b) == [x] + rest;
      assert ([x] + rest)[1..] == rest;
    } else {
      assert Bucket([x] + s, b) == [] + rest == rest;
    }
  }

  /** Bins that each confidence falls into exactly once lose nothing and count nothing twice. */
  lemma {:induction false} BinsPartition(bins: seq<Bin>, s: seq<Judged>)
    requires OneBinEach(bins, s)
    ensures Counted(bins, s) == |s| && ConfidenceIn(bins, s) == Confidences(s) && CorrectIn(bins, s) == Correct(s)
  {
    hide Bucket, Counted, ConfidenceIn, CorrectIn, Holders;
    if s == [] {
      NoAnswers(bins);
    } else {
      assert s == [s[0]] + s[1..];
      BinsPartition(bins, s[1..]);
      OneMore(bins, s[0], s[1..]);
    }
  }

  lemma {:induction false} NoAnswers(bins: seq<Bin>)
    ensures Counted(bins, []) == 0 && ConfidenceIn(bins, []) == 0.0 && CorrectIn(bins, []) == 0
  {
    if bins == [] {
    } else {
      NoAnswers(bins[..|bins| - 1]);
    }
  }

  lemma {:induction false} ConfidencesOnScale(s: seq<Judged>)
    requires OnScale(s)
    ensures 0.0 <= Confidences(s) <= |s| as real
  {
    if s == [] {
    } else {
      ConfidencesOnScale(s[1..]);
    }
  }

  lemma {:induction false} DifferenceOfMeans(s: seq<Judged>)
    requires s != []
    ensures Abs(MeanConfidence(s) - Accuracy(s)) * |s| as real == Abs(Confidences(s) - Correct(s) as real)
  {
    hide Confidences, Correct;
    var n := |s| as real;
    Cancel(Confidences(s), n);
    Cancel(Correct(s) as real, n);
    var d := MeanConfidence(s) - Accuracy(s);
    assert d * n == Confidences(s) - Correct(s) as real;
    ScaledAbs(d, n);
  }

  lemma ScaledAbs(d: real, n: real)
    requires n >= 0.0
    ensures Abs(d) * n == Abs(d * n)
  {}

  lemma BucketOnScale(s: seq<Judged>, b: Bin)
    requires OnScale(s)
    ensures OnScale(Bucket(s, b))
  {
    var bucket := Bucket(s, b);
    forall i | 0 <= i < |bucket| ensures 0.0 <= bucket[i].confidence <= 1.0 {
      assert bucket[i] in s;
    }
  }

  /** The gap, weighed by the size, is the distance between the two sums, and is at most the size. */
  lemma {:induction false} WeighedGapIsDistance(s: seq<Judged>)
    requires OnScale(s) && s != []
    ensures |s| as real * Gap(s) == Abs(Confidences(s) - Correct(s) as real)
    ensures 0.0 <= Gap(s) <= 1.0
  {
    hide Confidences, Correct, MeanConfidence, Accuracy, OnScale;
    ConfidencesOnScale(s);
    DifferenceOfMeans(s);
    var (n, gap) := (|s| as real, Gap(s));
    WithinOne(Confidences(s), Correct(s) as real, n);
    assert gap * n == Abs(Confidences(s) - Correct(s) as real) <= 1.0 * n;
    DescaleReal(gap, 1.0, n);
  }

  lemma WithinOne(a: real, b: real, n: real)
    requires 0.0 <= a <= n && 0.0 <= b <= n
    ensures Abs(a - b) <= n
  {}

  /** What the last bin adds to each figure. */
  lemma {:induction false} LastBinAdds(bins: seq<Bin>, s: seq<Judged>)
    requires s != [] && bins != []
    ensures var front, bucket := bins[..|bins| - 1], Bucket(s, bins[|bins| - 1]);
            && ConfidenceIn(bins, s) == ConfidenceIn(front, s) + Confidences(bucket)
            && CorrectIn(bins, s) == CorrectIn(front, s) + Correct(bucket)
            && Ece(bins, s) * |s| as real == Ece(front, s) * |s| as real + |bucket| as real * Gap(bucket)
            && Mce(bins, s) == (if Mce(front, s) < Gap(bucket) then Gap(bucket) else Mce(front, s))
            && Counted(bins, s) == Counted(front, s) + |bucket|
  {
    hide Bucket, Confidences, Correct, Gap;
    var front, bucket := bins[..|bins| - 1], Bucket(s, bins[|bins| - 1]);
    WeighedGap(|bucket|, |s|, Gap(bucket), Ece(front, s));
  }

  /** The expected error and the worst, bin by bin: one more bin adds to the first the distance between its confidences
      and its hits, over all answers, and raises the second to its own gap where that is larger. */
  lemma {:induction false} ErrorsAddUp(bins: seq<Bin>, b: Bin, s: seq<Judged>)
    requires s != [] && OnScale(s)
    ensures var bucket, all := Bucket(s, b), bins + [b];
            && Ece(all, s) * |s| as real ==
               Ece(bins, s) * |s| as real + Abs(Confidences(bucket) - Correct(bucket) as real)
            && Mce(all, s) >= Mce(bins, s)
            && Mce(all, s) * |bucket| as real >= Abs(Confidences(bucket) - Correct(bucket) as real)
            && (Mce(all, s) != Mce(bins, s) ==>
                  Mce(all, s) * |bucket| as real == Abs(Confidences(bucket) - Correct(bucket) as real) > 0.0)
    ensures Ece([], s) == 0.0 && Mce([], s) == 0.0
  {
    hide Bucket, Confidences, Correct, Gap, OnScale, Abs, Ece, Mce;
    var bucket := Bucket(s, b);
    assert (bins + [b])[..|bins|] == bins;
    NoBins(s);
    LastBinAdds(bins + [b], s);
    BinDistance(s, b);
    if bucket == [] {
      EmptyGap(bucket);
    }
    GapScaled(Gap(bucket), Mce(bins, s), |bucket|, Abs(Confidences(bucket) - Correct(bucket) as real));
  }

  lemma EmptyGap(s: seq<Judged>)
    requires s == []
    ensures Gap(s) == 0.0
  {}

  lemma GapScaled(g: real, m: real, n: nat, distance: real)
    requires g >= 0.0 && m >= 0.0 && distance == n as real * g && (n == 0 ==> g == 0.0)
    ensures var worst := if m < g then g else m;
            && worst >= m && worst * n as real >= distance
            && (worst != m ==> worst * n as real == distance > 0.0)
  {
    ScaleReal(g, if m < g then g else m, n as real);
  }

  lemma {:induction false} BinDistance(s: seq<Judged>, b: Bin)
    requires OnScale(s)
    ensures var bucket := Bucket(s, b);
            && |bucket| as real * Gap(bucket) == Abs(Confidences(bucket) - Correct(bucket) as real)
            && 0.0 <= Gap(bucket) <= 1.0
  {
    hide Bucket, OnScale;
    var bucket := Bucket(s, b);
    BucketOnScale(s, b);
    if bucket != [] {
      WeighedGapIsDistance(bucket);
    }
  }

  /** Bin by bin: the sums' distance is at most the weighted gaps, and those at most the worst gap throughout. */
  lemma {:induction false} ChainByBins(bins: seq<Bin>, s: seq<Judged>)
    requires OnScale(s) && s != []
    ensures Abs(ConfidenceIn(bins, s) - CorrectIn(bins, s) as real) <= Ece(bins, s) * |s| as real
    ensures Ece(bins, s) * |s| as real <= Mce(bins, s) * Counted(bins, s) as real
    ensures Mce(bins, s) <= 1.0
  {
    hide Bucket, Confidences, Correct, Gap, OnScale, Abs, ConfidenceIn, CorrectIn, Counted, Ece, Mce;
    if bins == [] {
      NoBins(s);
    } else {
      var front, bucket := bins[..|bins| - 1], Bucket(s, bins[|bins| - 1]);
      ChainByBins(front, s);
      LastBinAdds(bins, s);
      BinDistance(s, bins[|bins| - 1]);
      Triangle(ConfidenceIn(front, s) - CorrectIn(front, s) as real, Confidences(bucket) - Correct(bucket) as real);
      WorstCovers(Mce(front, s), Gap(bucket), Counted(front, s), |bucket|);
    }
  }

  lemma NoBins(s: seq<Judged>)
    requires s != []
    ensures Abs(ConfidenceIn([], s) - CorrectIn([], s) as real) == 0.0
    ensures Ece([], s) == 0.0 && Mce([], s) == 0.0 && Counted([], s) == 0
  {}

  lemma Triangle(a: real, b: real)
    ensures Abs(a + b) <= Abs(a) + Abs(b)
  {}

  lemma WorstCovers(m: real, g: real, c: nat, k: nat)
    ensures var worst := if m < g then g else m; m * c as real + k as real * g <= worst * (c + k) as real
  {
    var worst := if m < g then g else m;
    ScaleReal(m, worst, c as real);
    ScaleReal(g, worst, k as real);
    DistributeReal(c as real, k as real, worst);
  }

  lemma WeighedGap(k: nat, n: nat, g: real, e: real)
    requires n > 0
    ensures (e + k as real / n as real * g) * n as real == e * n as real + k as real * g
  {
    Cancel(k as real, n as real);
    var w := k as real / n as real;
    assert w * g * n as real == w * n as real * g;
  }

  /** The calibration error lies between the plain difference of means and the worst bin, which is at most 1. */
  lemma {:induction false} CalibrationChain(bins: seq<Bin>, s: seq<Judged>)
    requires s != [] && OnScale(s) && OneBinEach(bins, s)
    ensures Counted(bins, s) == |s|
    ensures Abs(MeanConfidence(s) - Accuracy(s)) <= Ece(bins, s) <= Mce(bins, s) <= 1.0
  {
    hide Bucket, Confidences, Correct, Gap, OnScale, OneBinEach, Ece, Mce, Counted, ConfidenceIn, CorrectIn, Abs,
         MeanConfidence, Accuracy;
    BinsPartition(bins, s);
    ChainByBins(bins, s);
    DifferenceOfMeans(s);
    DescaleReal(Abs(MeanConfidence(s) - Accuracy(s)), Ece(bins, s), |s| as real);
    DescaleReal(Ece(bins, s), Mce(bins, s), |s| as real);
  }

  /** The default bins meet the chain's conditions for every list of answers on the unit scale. */
  lemma DefaultBinsChain(s: seq<Judged>)
    requires s != [] && OnScale(s)
    ensures Counted(DEFAULT_BINS, s) == |s|
    ensures Abs(MeanConfidence(s) - Accuracy(s)) <= Ece(DEFAULT_BINS, s) <= Mce(DEFAULT_BINS, s) <= 1.0
  {
    hide Holders, Counted, Ece, Mce, Abs, MeanConfidence, Accuracy;
    forall i | 0 <= i < |s| ensures Holders(DEFAULT_BINS, s[i].confidence) == 1 {
      DefaultBinsPartition(s[i].confidence);
    }
    CalibrationChain(DEFAULT_BINS, s);
  }

  /** No expected error means no error in any bin, and the other way round. */
  lemma {:induction false} NoErrorIff(bins: seq<Bin>, s: seq<Judged>)
    requires s != []
    ensures Ece(bins, s) >= 0.0 && (Ece(bins, s) == 0.0 <==> Mce(bins, s) == 0.0)
  {
    hide Bucket, MeanConfidence, Accuracy;
    if bins == [] {
    } else {
      NoErrorIff(bins[..|bins| - 1], s);
      WeightIsPositive(|Bucket(s, bins[|bins| - 1])|, |s|, Gap(Bucket(s, bins[|bins| - 1])));
    }
  }

  lemma WeightIsPositive(k: nat, n: nat, g: real)
    requires n > 0 && g >= 0.0
    ensures k as real / n as real * g >= 0.0
    ensures k > 0 ==> (k as real / n as real * g == 0.0 <==> g == 0.0)
  {
    var w := k as real / n as real;
    Cancel(k as real, n as real);
    assert w >= 0.0 && (k > 0 ==> w > 0.0);
  }
}
