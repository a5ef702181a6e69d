/**
 * Per-phase statistics of src/analysis.js: the accumulator that
 * `updatePhaseStats` changes in place, the field-wise merge
 * `aggregateReports` performs, and the finished figures of
 * `finalizePhaseStats`. Score and win-rate histograms are sequences indexed
 * by the position of the bucket in its table.
 */
module PhaseStats {
  import opened Wrappers
  import opened Buckets
  import opened Phases

  /** `ACCURACY_THRESHOLD` of src/state.js. */
  const AccuracyThreshold: real := 0.5

  const QualityBuckets: seq<Bucket> := [
    Bucket("best", Finite(0.5)),
    Bucket("good", Finite(1.5)),
    Bucket("ok", Finite(3.0)),
    Bucket("bad", Finite(6.0)),
    Bucket("blunder", Unbounded)
  ]

  /** Win-rate loss buckets, in percent. */
  const WinrateBuckets: seq<Bucket> := [
    Bucket("lt1", Finite(1.0)),
    Bucket("1-3", Finite(3.0)),
    Bucket("3-6", Finite(6.0)),
    Bucket("6-12", Finite(12.0)),
    Bucket("12-24", Finite(24.0)),
    Bucket("24+", Unbounded)
  ]

  lemma QualityBucketsWellFormed()
    ensures WellFormed(QualityBuckets)
  {
    var t := QualityBuckets;
    assert |t| > 0 && t[|t| - 1].bound.Unbounded? && forall i :: 0 <= i < |t| - 1 ==> t[i].bound.Finite?;
    assert forall i, j :: 0 <= i < j < |t| - 1 ==> t[i].bound.max < t[j].bound.max;
    assert forall i, j :: 0 <= i < j < |t| ==> t[i].id != t[j].id;
  }

  lemma WinrateBucketsWellFormed()
    ensures WellFormed(WinrateBuckets)
  {
    var t := WinrateBuckets;
    assert |t| > 0 && t[|t| - 1].bound.Unbounded? && forall i :: 0 <= i < |t| - 1 ==> t[i].bound.Finite?;
    assert forall i, j :: 0 <= i < j < |t| - 1 ==> t[i].bound.max < t[j].bound.max;
    assert forall i, j :: 0 <= i < j < |t| ==> t[i].id != t[j].id;
  }

  const QualityBucketCount: nat := 5
  const WinrateBucketCount: nat := 6

  lemma TableSizes()
    ensures |QualityBuckets| == QualityBucketCount && |WinrateBuckets| == WinrateBucketCount
  {
  }

  /** `getQualityBucket`, as the index of the bucket in `QualityBuckets`. */
  function GetQualityBucket(scoreLoss: real): (b: nat)
    ensures b < QualityBucketCount
  {
    Classify(QualityBuckets, scoreLoss)
  }

  /** The bucket chosen is the first whose bound the loss is within. */
  lemma QualityBucketIsFirstFit(scoreLoss: real)
    ensures Fits(QualityBuckets[GetQualityBucket(scoreLoss)], scoreLoss)
    ensures forall j :: 0 <= j < GetQualityBucket(scoreLoss) ==> !Fits(QualityBuckets[j], scoreLoss)
  {
    QualityBucketsWellFormed();
    ClassifyFits(QualityBuckets, scoreLoss);
  }

  /** `getWinrateBucket`, on a loss in percent. */
  function GetWinrateBucket(winrateLossPct: real): (b: nat)
    ensures b < WinrateBucketCount
  {
    Classify(WinrateBuckets, winrateLossPct)
  }

  /** The bucket chosen is the first whose bound the percentage is within. */
  lemma WinrateBucketIsFirstFit(winrateLossPct: real)
    ensures Fits(WinrateBuckets[GetWinrateBucket(winrateLossPct)], winrateLossPct)
    ensures forall j :: 0 <= j < GetWinrateBucket(winrateLossPct) ==> !Fits(WinrateBuckets[j], winrateLossPct)
  {
    WinrateBucketsWellFormed();
    ClassifyFits(WinrateBuckets, winrateLossPct);
  }

  /** A score loss above 6 points is a blunder; a loss of at most 0.5 is the best move class. */
  lemma QualityBucketEnds(scoreLoss: real)
    ensures GetQualityBucket(scoreLoss) == 0 <==> scoreLoss <= AccuracyThreshold
    ensures GetQualityBucket(scoreLoss) == 4 <==> scoreLoss > 6.0
  {
    QualityBucketIsFirstFit(scoreLoss);
  }

  datatype Mistakes = Mistakes(total: nat, severe: nat, blunders: nat)

  /** The raw, unfinished statistics of one phase. */
  datatype PhaseStats = PhaseStats(
    moves: nat,
    accurate: nat,
    scoreLossTotal: real,
    winrateLossTotal: real,
    mistakes: Mistakes,
    scoreBuckets: seq<nat>,
    winrateBuckets: seq<nat>)

  function Zeros(n: nat): (z: seq<nat>)
    ensures |z| == n && forall i :: 0 <= i < n ==> z[i] == 0
  {
    seq(n, i => 0)
  }

  /** `initPhaseStats`. */
  function InitPhaseStats(): (s: PhaseStats)
    ensures s.moves == 0 && s.accurate == 0 && s.mistakes == Mistakes(0, 0, 0)
    ensures |s.scoreBuckets| == QualityBucketCount && |s.winrateBuckets| == WinrateBucketCount
  {
    PhaseStats(0, 0, 0.0, 0.0, Mistakes(0, 0, 0), Zeros(QualityBucketCount), Zeros(WinrateBucketCount))
  }

  /** One counter per bucket of each table. */
  predicate Shaped(s: PhaseStats)
  {
    |s.scoreBuckets| == QualityBucketCount && |s.winrateBuckets| == WinrateBucketCount
  }

  function Sum(s: seq<nat>): nat
  {
    if |s| == 0 then 0 else s[0] + Sum(s[1..])
  }

  /** `acc[id] += p[id] || 0` over the keys of `acc`. */
  function AddSeq(acc: seq<nat>, p: seq<nat>): (r: seq<nat>)
    ensures |r| == |acc|
  {
    seq(|acc|, i requires 0 <= i < |acc| => acc[i] + (if i < |p| then p[i] else 0))
  }

  function Bump(s: seq<nat>, i: nat): seq<nat>
    requires i < |s|
  {
    s[i := s[i] + 1]
  }

  /** The score half of `updatePhaseStats`: one more move, its loss, its accuracy and its score bucket. */
  function RecordScore(s: PhaseStats, scoreLoss: real): (r: PhaseStats)
    requires Shaped(s)
    ensures Shaped(r)
  {
    s.(moves := s.moves + 1,
       scoreLossTotal := s.scoreLossTotal + scoreLoss,
       accurate := if scoreLoss <= AccuracyThreshold then s.accurate + 1 else s.accurate,
       scoreBuckets := Bump(s.scoreBuckets, GetQualityBucket(scoreLoss)))
  }

  /** The win-rate half, taken when the win-rate loss is a number: its total, its bucket, its mistakes. */
  function RecordWinrate(s: PhaseStats, winrateLoss: real): (r: PhaseStats)
    requires Shaped(s)
    ensures Shaped(r)
  {
    var m := s.mistakes;
    s.(winrateLossTotal := s.winrateLossTotal + winrateLoss,
       winrateBuckets := Bump(s.winrateBuckets, GetWinrateBucket(winrateLoss * 100.0)),
       mistakes := Mistakes(if winrateLoss >= 0.1 then m.total + 1 else m.total,
                            if winrateLoss >= 0.2 then m.severe + 1 else m.severe,
                            if winrateLoss >= 0.4 then m.blunders + 1 else m.blunders))
  }

  /** `updatePhaseStats(stats, scoreLoss, winrateLoss)` as a value; `None` is a win-rate loss that is not a number. */
  function Recorded(s: PhaseStats, scoreLoss: real, winrateLoss: Option<real>): (r: PhaseStats)
    requires Shaped(s)
    ensures Shaped(r)
    ensures r.moves == s.moves + 1 && r.scoreLossTotal == s.scoreLossTotal + scoreLoss
    ensures winrateLoss.None? ==>
              r.winrateLossTotal == s.winrateLossTotal && r.mistakes == s.mistakes && r.winrateBuckets == s.winrateBuckets
  {
    var scored := RecordScore(s, scoreLoss);
    if winrateLoss.Some? then RecordWinrate(scored, winrateLoss.value) else scored
  }

  /** The field-wise sum `aggregateReports` adds one phase into an accumulator with. */
  function Merge(acc: PhaseStats, p: PhaseStats): (r: PhaseStats)
    ensures |r.scoreBuckets| == |acc.scoreBuckets| && |r.winrateBuckets| == |acc.winrateBuckets|
    ensures r.moves == acc.moves + p.moves && r.accurate == acc.accurate + p.accurate
  {
    PhaseStats(
      acc.moves + p.moves,
      acc.accurate + p.accurate,
      acc.scoreLossTotal + p.scoreLossTotal,
      acc.winrateLossTotal + p.winrateLossTotal,
      Mistakes(acc.mistakes.total + p.mistakes.total,
               acc.mistakes.severe + p.mistakes.severe,
               acc.mistakes.blunders + p.mistakes.blunders),
      AddSeq(acc.scoreBuckets, p.scoreBuckets),
      AddSeq(acc.winrateBuckets, p.winrateBuckets))
  }

  /**
   * What accumulation keeps true: `accurate` is the 'best' count, the score
   * buckets count every move, at most every move has a win-rate bucket, and
   * the cumulative mistake thresholds (10%, 20%, 40%) sit inside the buckets
   * above 6%, 12% and 24%.
   */
  ghost predicate Consistent(s: PhaseStats)
  {
    && Shaped(s)
    && s.accurate == s.scoreBuckets[0]
    && Sum(s.scoreBuckets) == s.moves
    && Sum(s.winrateBuckets) <= s.moves
    && s.mistakes.blunders <= s.mistakes.severe <= s.mistakes.total
    && s.mistakes.total <= s.winrateBuckets[3] + s.winrateBuckets[4] + s.winrateBuckets[5]
    && s.mistakes.severe <= s.winrateBuckets[4] + s.winrateBuckets[5]
    && s.mistakes.blunders <= s.winrateBuckets[5]
  }

  lemma SumZeros(n: nat)
    ensures Sum(Zeros(n)) == 0
  {
    if n > 0 {
      assert Zeros(n)[1..] == Zeros(n - 1);
      SumZeros(n - 1);
    }
  }

  lemma {:induction false} SumBump(s: seq<nat>, i: nat)
    requires i < |s|
    ensures Sum(Bump(s, i)) == Sum(s) + 1
    decreases i
  {
    if i == 0 {
      assert Bump(s, i)[1..] == s[1..];
    } else {
      assert Bump(s, i)[1..] == Bump(s[1..], i - 1);
      SumBump(s[1..], i - 1);
    }
  }

  lemma {:induction false} SumAddSeq(a: seq<nat>, b: seq<nat>)
    requires |a| == |b|
    ensures Sum(AddSeq(a, b)) == Sum(a) + Sum(b)
    decreases |a|
  {
    if |a| > 0 {
      assert AddSeq(a, b)[1..] == AddSeq(a[1..], b[1..]);
      SumAddSeq(a[1..], b[1..]);
    }
  }

  lemma InitConsistent()
    ensures Consistent(InitPhaseStats())
  {
    SumZeros(QualityBucketCount);
    SumZeros(WinrateBucketCount);
  }

  /** The mistake thresholds lie inside the win-rate buckets: 10% is above '3-6', 20% above '6-12', 40% above '12-24'. */
  lemma MistakeBuckets(winrateLoss: real)
    ensures winrateLoss >= 0.1 ==> GetWinrateBucket(winrateLoss * 100.0) >= 3
    ensures winrateLoss >= 0.2 ==> GetWinrateBucket(winrateLoss * 100.0) >= 4
    ensures winrateLoss >= 0.4 ==> GetWinrateBucket(winrateLoss * 100.0) == 5
  {
    var pct := winrateLoss * 100.0;
    WinrateBucketIsFirstFit(pct);
    if winrateLoss >= 0.1 {
      assert !Fits(WinrateBuckets[2], pct);
    }
    if winrateLoss >= 0.2 {
      assert !Fits(WinrateBuckets[3], pct);
    }
    if winrateLoss >= 0.4 {
      assert !Fits(WinrateBuckets[4], pct);
    }
  }

  lemma RecordScoreConsistent(s: PhaseStats, scoreLoss: real)
    requires Consistent(s)
    ensures Consistent(RecordScore(s, scoreLoss))
    ensures Sum(RecordScore(s, scoreLoss).winrateBuckets) < RecordScore(s, scoreLoss).moves
  {
    SumBump(s.scoreBuckets, GetQualityBucket(scoreLoss));
    QualityBucketEnds(scoreLoss);
  }

  lemma RecordWinrateConsistent(s: PhaseStats, winrateLoss: real)
    requires Consistent(s) && Sum(s.winrateBuckets) < s.moves
    ensures Consistent(RecordWinrate(s, winrateLoss))
  {
    SumBump(s.winrateBuckets, GetWinrateBucket(winrateLoss * 100.0));
    MistakeBuckets(winrateLoss);
  }

  /** `updatePhaseStats` keeps the statistics consistent. */
  lemma RecordedConsistent(s: PhaseStats, scoreLoss: real, winrateLoss: Option<real>)
    requires Consistent(s)
    ensures Consistent(Recorded(s, scoreLoss, winrateLoss))
  {
    RecordScoreConsistent(s, scoreLoss);
    if winrateLoss.Some? {
      RecordWinrateConsistent(RecordScore(s, scoreLoss), winrateLoss.value);
    }
  }

  /** Merging two consistent statistics gives consistent statistics. */
  lemma MergeConsistent(a: PhaseStats, b: PhaseStats)
    requires Consistent(a) && Consistent(b)
    ensures Consistent(Merge(a, b))
  {
    SumAddSeq(a.scoreBuckets, b.scoreBuckets);
    SumAddSeq(a.winrateBuckets, b.winrateBuckets);
  }

  /** Recording one move is merging in the statistics of that move alone. */
  lemma RecordedIsMerge(s: PhaseStats, scoreLoss: real, winrateLoss: Option<real>)
    requires Shaped(s)
    ensures Recorded(s, scoreLoss, winrateLoss) == Merge(s, Recorded(InitPhaseStats(), scoreLoss, winrateLoss))
  {
    var r := Recorded(s, scoreLoss, winrateLoss);
    var d := Recorded(InitPhaseStats(), scoreLoss, winrateLoss);
    var m := Merge(s, d);
    assert r.scoreBuckets == m.scoreBuckets;
    assert r.winrateBuckets == m.winrateBuckets;
    assert r.mistakes == m.mistakes;
  }

  /** The empty statistics are a unit of the merge. */
  lemma MergeInit(s: PhaseStats)
    requires Shaped(s)
    ensures Merge(InitPhaseStats(), s) == s && Merge(s, InitPhaseStats()) == s
  {
    assert Merge(InitPhaseStats(), s).scoreBuckets == s.scoreBuckets;
    assert Merge(InitPhaseStats(), s).winrateBuckets == s.winrateBuckets;
    assert Merge(s, InitPhaseStats()).scoreBuckets == s.scoreBuckets;
    assert Merge(s, InitPhaseStats()).winrateBuckets == s.winrateBuckets;
  }

  /** Merging is commutative on shaped statistics. */
  lemma MergeCommutes(a: PhaseStats, b: PhaseStats)
    requires Shaped(a) && Shaped(b)
    ensures Merge(a, b) == Merge(b, a)
  {
    assert Merge(a, b).scoreBuckets == Merge(b, a).scoreBuckets;
    assert Merge(a, b).winrateBuckets == Merge(b, a).winrateBuckets;
  }

  /** Merging is associative on shaped statistics. */
  lemma MergeAssociates(a: PhaseStats, b: PhaseStats, c: PhaseStats)
    requires Shaped(a) && Shaped(b) && Shaped(c)
    ensures Merge(Merge(a, b), c) == Merge(a, Merge(b, c))
  {
    assert Merge(Merge(a, b), c).scoreBuckets == Merge(a, Merge(b, c)).scoreBuckets;
    assert Merge(Merge(a, b), c).winrateBuckets == Merge(a, Merge(b, c)).winrateBuckets;
  }

  lemma MergeShaped(a: PhaseStats, b: PhaseStats)
    requires Shaped(a)
    ensures Shaped(Merge(a, b))
  {
  }

  /** `10^digits`. */
  function Pow10(digits: nat): (p: nat)
    ensures p >= 1
  {
    if digits == 0 then 1 else 10 * Pow10(digits - 1)
  }

  /** Rounding to the nearest integer, halves away from zero, as `toFixed` rounds its last digit. */
  function RoundHalfAway(y: real): (n: int)
    ensures y - 0.5 <= n as real <= y + 0.5
    ensures y >= 0.0 ==> n >= 0
  {
    if y >= 0.0 then (y + 0.5).Floor else -((-y + 0.5).Floor)
  }

  /** Halves go away from zero on both sides: rounding commutes with negation. */
  lemma RoundHalfAwaySymmetric(y: real)
    ensures RoundHalfAway(-y) == -RoundHalfAway(y)
  {
  }

  /** Whole numbers are already rounded. */
  lemma RoundHalfAwayWhole(k: int)
    ensures RoundHalfAway(k as real) == k
  {
  }

  /** `Number(x.toFixed(digits))` on exact reals: round to `digits` decimals, halves away from zero. */
  function RoundTo(x: real, digits: nat): (r: real)
    ensures x >= 0.0 ==> r >= 0.0
    ensures -0.5 / (Pow10(digits) as real) <= r - x <= 0.5 / (Pow10(digits) as real)
  {
    var p := Pow10(digits) as real;
    var n := RoundHalfAway(x * p) as real;
    assert n / p - x == (n - x * p) / p;
    n / p
  }

  /** Rounding to one decimal moves a value by at most 0.05. */
  lemma RoundToOne(x: real)
    ensures -0.05 <= RoundTo(x, 1) - x <= 0.05
  {
    assert Pow10(1) == 10;
  }

  /** Rounding to two decimals moves a value by at most 0.005. */
  lemma RoundToTwo(x: real)
    ensures -0.005 <= RoundTo(x, 2) - x <= 0.005
  {
    assert Pow10(2) == 100;
  }

  /** A percentage in [0, 100] stays in [0, 100] after rounding to one decimal. */
  lemma RoundPercent(x: real)
    requires 0.0 <= x <= 100.0
    ensures 0.0 <= RoundTo(x, 1) <= 100.0
  {
    assert Pow10(1) == 10;
    assert RoundHalfAway(x * 10.0) <= 1000;
  }

  /** The finished statistics of one phase. */
  datatype FinalStats = FinalStats(
    moves: nat,
    accuracy: real,
    avgLoss: real,
    avgWinLoss: real,
    mistakes: Mistakes,
    scoreBuckets: seq<nat>,
    winrateBuckets: seq<nat>)

  /**
   * `finalizePhaseStats`: accuracy in percent to one decimal, the average
   * score loss to two, the average win-rate loss in percent to two; all
   * three are 0 when the phase has no moves.
   */
  function FinalizePhaseStats(s: PhaseStats): (f: FinalStats)
    ensures f.moves == s.moves && f.mistakes == s.mistakes
    ensures f.scoreBuckets == s.scoreBuckets && f.winrateBuckets == s.winrateBuckets
    ensures s.moves == 0 ==> f.accuracy == 0.0 && f.avgLoss == 0.0 && f.avgWinLoss == 0.0
    ensures s.moves > 0 ==> -0.05 <= f.accuracy - 100.0 * (s.accurate as real) / (s.moves as real) <= 0.05
    ensures s.moves > 0 ==> -0.005 <= f.avgLoss - s.scoreLossTotal / (s.moves as real) <= 0.005
    ensures s.moves > 0 ==> -0.005 <= f.avgWinLoss - 100.0 * s.winrateLossTotal / (s.moves as real) <= 0.005
  {
    var n := s.moves as real;
    var accuracy := if s.moves > 0 then (s.accurate as real / n) * 100.0 else 0.0;
    var avgLoss := if s.moves > 0 then s.scoreLossTotal / n else 0.0;
    var avgWinLoss := if s.moves > 0 then (s.winrateLossTotal / n) * 100.0 else 0.0;
    assert s.moves > 0 ==> accuracy == 100.0 * (s.accurate as real) / n;
    assert s.moves > 0 ==> avgWinLoss == 100.0 * s.winrateLossTotal / n;
    RoundToOne(accuracy);
    RoundToTwo(avgLoss);
    RoundToTwo(avgWinLoss);
    FinalStats(s.moves, RoundTo(accuracy, 1), RoundTo(avgLoss, 2), RoundTo(avgWinLoss, 2),
               s.mistakes, s.scoreBuckets, s.winrateBuckets)
  }

  lemma {:induction false} ElementAtMostSum(s: seq<nat>, i: nat)
    requires i < |s|
    ensures s[i] <= Sum(s)
    decreases i
  {
    if i > 0 {
      ElementAtMostSum(s[1..], i - 1);
    }
  }

  /** The accuracy of consistent statistics is a percentage. */
  lemma AccuracyIsPercent(s: PhaseStats)
    requires Consistent(s)
    ensures 0.0 <= FinalizePhaseStats(s).accuracy <= 100.0
  {
    if s.moves > 0 {
      ElementAtMostSum(s.scoreBuckets, 0);
      var n := s.moves as real;
      var a := s.accurate as real;
      assert a <= n;
      assert a / n <= 1.0;
      RoundPercent((a / n) * 100.0);
    }
  }

  /** When every move is accurate the accuracy is exactly 100. */
  lemma AllAccurate(s: PhaseStats)
    requires s.moves > 0 && s.accurate == s.moves
    ensures FinalizePhaseStats(s).accuracy == 100.0
  {
    var n := s.moves as real;
    assert (s.accurate as real / n) * 100.0 == 100.0;
    assert Pow10(1) == 10;
    assert RoundHalfAway(1000.0) == 1000;
  }

  /** The mutable statistics object of one phase. */
  class PhaseAccumulator {
    var moves: nat
    var accurate: nat
    var scoreLossTotal: real
    var winrateLossTotal: real
    var mistakes: Mistakes
    var scoreBuckets: seq<nat>
    var winrateBuckets: seq<nat>

    function Snapshot(): PhaseStats
      reads this
    {
      PhaseStats(moves, accurate, scoreLossTotal, winrateLossTotal, mistakes, scoreBuckets, winrateBuckets)
    }

    ghost predicate Valid()
      reads this
    {
      Shaped(Snapshot())
    }

    /** `initPhaseStats()`. */
    constructor ()
      ensures moves == 0 && accurate == 0 && scoreLossTotal == 0.0 && winrateLossTotal == 0.0
      ensures mistakes == Mistakes(0, 0, 0)
      ensures scoreBuckets == Zeros(QualityBucketCount) && winrateBuckets == Zeros(WinrateBucketCount)
    {
      moves := 0;
      accurate := 0;
      scoreLossTotal := 0.0;
      winrateLossTotal := 0.0;
      mistakes := Mistakes(0, 0, 0);
      scoreBuckets := Zeros(QualityBucketCount);
      winrateBuckets := Zeros(WinrateBucketCount);
    }

    /** `updatePhaseStats(this, scoreLoss, winrateLoss)`. */
    method Update(scoreLoss: real, winrateLoss: Option<real>)
      requires Valid()
      modifies this
      ensures Snapshot() == Recorded(old(Snapshot()), scoreLoss, winrateLoss)
      ensures Valid()
    {
      UpdateScore(scoreLoss);
      if winrateLoss.Some? {
        UpdateWinrate(winrateLoss.value);
      }
    }

    method UpdateScore(scoreLoss: real)
      requires Shaped(Snapshot())
      modifies this
      ensures Snapshot() == RecordScore(old(Snapshot()), scoreLoss)
    {
      moves := moves + 1;
      scoreLossTotal := scoreLossTotal + scoreLoss;
      if scoreLoss <= AccuracyThreshold {
        accurate := accurate + 1;
      }
      var scoreBucket := GetQualityBucket(scoreLoss);
      scoreBuckets := scoreBuckets[scoreBucket := scoreBuckets[scoreBucket] + 1];
    }

    method UpdateWinrate(winrateLoss: real)
      requires Shaped(Snapshot())
      modifies this
      ensures Snapshot() == RecordWinrate(old(Snapshot()), winrateLoss)
    {
      winrateLossTotal := winrateLossTotal + winrateLoss;
      var winrateBucket := GetWinrateBucket(winrateLoss * 100.0);
      winrateBuckets := winrateBuckets[winrateBucket := winrateBuckets[winrateBucket] + 1];
      if winrateLoss >= 0.1 { mistakes := mistakes.(total := mistakes.total + 1); }
      if winrateLoss >= 0.2 { mistakes := mistakes.(severe := mistakes.severe + 1); }
      if winrateLoss >= 0.4 { mistakes := mistakes.(blunders := mistakes.blunders + 1); }
    }

    /** The inner loop of `aggregateReports`: add phase `p` into this accumulator. */
    method Add(p: PhaseStats)
      requires Valid()
      modifies this
      ensures Snapshot() == Merge(old(Snapshot()), p)
      ensures Valid()
    {
      moves := moves + p.moves;
      accurate := accurate + p.accurate;
      scoreLossTotal := scoreLossTotal + p.scoreLossTotal;
      winrateLossTotal := winrateLossTotal + p.winrateLossTotal;
      mistakes := Mistakes(mistakes.total + p.mistakes.total,
                           mistakes.severe + p.mistakes.severe,
                           mistakes.blunders + p.mistakes.blunders);
      scoreBuckets := AddSeq(scoreBuckets, p.scoreBuckets);
      winrateBuckets := AddSeq(winrateBuckets, p.winrateBuckets);
    }
  }

  /** The four phase statistics of a player: `total`, `opening`, `middle`, `end`. */
  datatype RawPhases = RawPhases(total: PhaseStats, opening: PhaseStats, middle: PhaseStats, end: PhaseStats)

  function InitRawPhases(): RawPhases
  {
    RawPhases(InitPhaseStats(), InitPhaseStats(), InitPhaseStats(), InitPhaseStats())
  }

  function PhaseStatsOf(r: RawPhases, phase: Phase): PhaseStats
  {
    match phase
    case Opening => r.opening
    case Middle => r.middle
    case End => r.end
  }

  /** Both `updatePhaseStats` calls of `buildGameReport`: the total and the move's own phase. */
  function RecordMove(r: RawPhases, phase: Phase, scoreLoss: real, winrateLoss: Option<real>): (r': RawPhases)
    requires Shaped(r.total) && Shaped(r.opening) && Shaped(r.middle) && Shaped(r.end)
    ensures r'.total == Recorded(r.total, scoreLoss, winrateLoss)
    ensures PhaseStatsOf(r', phase) == Recorded(PhaseStatsOf(r, phase), scoreLoss, winrateLoss)
    ensures forall q :: q != phase ==> PhaseStatsOf(r', q) == PhaseStatsOf(r, q)
  {
    var total := Recorded(r.total, scoreLoss, winrateLoss);
    match phase
    case Opening => r.(total := total, opening := Recorded(r.opening, scoreLoss, winrateLoss))
    case Middle => r.(total := total, middle := Recorded(r.middle, scoreLoss, winrateLoss))
    case End => r.(total := total, end := Recorded(r.end, scoreLoss, winrateLoss))
  }

  /** Adds every phase of `p` into the matching phase of `acc`. */
  function MergeRaw(acc: RawPhases, p: RawPhases): RawPhases
  {
    RawPhases(Merge(acc.total, p.total), Merge(acc.opening, p.opening),
              Merge(acc.middle, p.middle), Merge(acc.end, p.end))
  }

  predicate RawShaped(r: RawPhases)
  {
    Shaped(r.total) && Shaped(r.opening) && Shaped(r.middle) && Shaped(r.end)
  }

  lemma MergeRawShaped(a: RawPhases, b: RawPhases)
    ensures RawShaped(a) ==> RawShaped(MergeRaw(a, b))
  {
    if RawShaped(a) {
      MergeShaped(a.total, b.total);
      MergeShaped(a.opening, b.opening);
      MergeShaped(a.middle, b.middle);
      MergeShaped(a.end, b.end);
    }
  }

  /** Fresh phases are the unit of merging. */
  lemma MergeRawInit(r: RawPhases)
    requires RawShaped(r)
    ensures MergeRaw(InitRawPhases(), r) == r && MergeRaw(r, InitRawPhases()) == r
  {
    MergeInit(r.total);
    MergeInit(r.opening);
    MergeInit(r.middle);
    MergeInit(r.end);
  }

  lemma MergeRawCommutes(a: RawPhases, b: RawPhases)
    requires RawShaped(a) && RawShaped(b)
    ensures MergeRaw(a, b) == MergeRaw(b, a)
  {
    MergeCommutes(a.total, b.total);
    MergeCommutes(a.opening, b.opening);
    MergeCommutes(a.middle, b.middle);
    MergeCommutes(a.end, b.end);
  }

  lemma MergeRawAssociates(a: RawPhases, b: RawPhases, c: RawPhases)
    requires RawShaped(a) && RawShaped(b) && RawShaped(c)
    ensures MergeRaw(MergeRaw(a, b), c) == MergeRaw(a, MergeRaw(b, c))
  {
    MergeAssociates(a.total, b.total, c.total);
    MergeAssociates(a.opening, b.opening, c.opening);
    MergeAssociates(a.middle, b.middle, c.middle);
    MergeAssociates(a.end, b.end, c.end);
  }

  /** Every phase is consistent and the total is the sum of the three phases. */
  ghost predicate RawConsistent(r: RawPhases)
  {
    && Consistent(r.total) && Consistent(r.opening) && Consistent(r.middle) && Consistent(r.end)
    && r.total == Merge(Merge(r.opening, r.middle), r.end)
  }

  lemma InitRawConsistent()
    ensures RawConsistent(InitRawPhases())
  {
    InitConsistent();
    MergeInit(InitPhaseStats());
  }

  /** Recording a move keeps every phase consistent and the total equal to the sum of the phases. */
  lemma RecordMoveConsistent(r: RawPhases, phase: Phase, scoreLoss: real, winrateLoss: Option<real>)
    requires RawConsistent(r)
    ensures RawConsistent(RecordMove(r, phase, scoreLoss, winrateLoss))
  {
    var d := Recorded(InitPhaseStats(), scoreLoss, winrateLoss);
    var o, m, e := r.opening, r.middle, r.end;
    RecordedConsistent(r.total, scoreLoss, winrateLoss);
    RecordedConsistent(PhaseStatsOf(r, phase), scoreLoss, winrateLoss);
    RecordedIsMerge(r.total, scoreLoss, winrateLoss);
    RecordedIsMerge(PhaseStatsOf(r, phase), scoreLoss, winrateLoss);
    MergeShaped(o, m);
    MergeShaped(o, d);
    MergeShaped(m, d);
    match phase
    case Opening =>
      MergeAssociates(o, m, d);
      MergeCommutes(m, d);
      MergeAssociates(o, d, m);
      MergeAssociates(Merge(o, m), e, d);
      MergeCommutes(e, d);
      MergeAssociates(Merge(o, m), d, e);
    case Middle =>
      MergeAssociates(Merge(o, m), e, d);
      MergeCommutes(e, d);
      MergeAssociates(Merge(o, m), d, e);
      MergeAssociates(o, m, d);
    case End =>
      MergeAssociates(Merge(o, m), e, d);
  }

  /** Merging consistent raw phases keeps them consistent, totals included. */
  lemma MergeRawConsistent(a: RawPhases, b: RawPhases)
    requires RawConsistent(a) && RawConsistent(b)
    ensures RawConsistent(MergeRaw(a, b))
  {
    MergeConsistent(a.total, b.total);
    MergeConsistent(a.opening, b.opening);
    MergeConsistent(a.middle, b.middle);
    MergeConsistent(a.end, b.end);
    var ao, am, ae := a.opening, a.middle, a.end;
    var bo, bm, be := b.opening, b.middle, b.end;
    MergeShaped(ao, am);
    MergeShaped(bo, bm);
    MergeShaped(ao, bo);
    MergeShaped(am, bm);
    MergeShaped(Merge(ao, am), bo);
    // (ao+am+ae) + (bo+bm+be) == (ao+bo) + (am+bm) + (ae+be)
    MergeAssociates(Merge(ao, am), ae, Merge(Merge(bo, bm), be));
    MergeCommutes(ae, Merge(Merge(bo, bm), be));
    MergeAssociates(Merge(bo, bm), be, ae);
    MergeCommutes(be, ae);
    MergeAssociates(Merge(ao, am), Merge(bo, bm), Merge(ae, be));
    MergeAssociates(ao, am, Merge(bo, bm));
    MergeAssociates(am, bo, bm);
    MergeCommutes(am, bo);
    MergeAssociates(bo, am, bm);
    MergeAssociates(ao, bo, Merge(am, bm));
    MergeShaped(Merge(ao, bo), am);
    MergeAssociates(Merge(ao, bo), am, bm);
    MergeAssociates(ao, Merge(bo, am), bm);
    MergeAssociates(ao, bo, am);
    MergeAssociates(Merge(ao, bo), Merge(am, bm), Merge(ae, be));
    MergeAssociates(Merge(ao, am), Merge(bo, bm), Merge(ae, be));
  }

  /** `initPlayerStats()`: four distinct mutable phase accumulators. */
  class PlayerStats {
    const total: PhaseAccumulator
    const opening: PhaseAccumulator
    const middle: PhaseAccumulator
    const end: PhaseAccumulator
    ghost const Repr: set<object>

    ghost predicate Valid()
      reads this, Repr
    {
      && Repr == {total, opening, middle, end}
      && total != opening && total != middle && total != end
      && opening != middle && opening != end && middle != end
      && total.Valid() && opening.Valid() && middle.Valid() && end.Valid()
    }

    function Snapshot(): RawPhases
      reads this, total, opening, middle, end
    {
      RawPhases(total.Snapshot(), opening.Snapshot(), middle.Snapshot(), end.Snapshot())
    }

    function Accumulator(phase: Phase): (a: PhaseAccumulator)
      reads this
      ensures a == opening || a == middle || a == end
    {
      match phase
      case Opening => opening
      case Middle => middle
      case End => end
    }

    constructor ()
      ensures Valid() && fresh(Repr)
      ensures Snapshot() == InitRawPhases()
    {
      total := new PhaseAccumulator();
      opening := new PhaseAccumulator();
      middle := new PhaseAccumulator();
      end := new PhaseAccumulator();
      Repr := {total, opening, middle, end};
      new;
    }

    /** The two `updatePhaseStats` calls `buildGameReport` makes for one counted move. */
    method Record(phase: Phase, scoreLoss: real, winrateLoss: Option<real>)
      requires Valid()
      modifies Repr
      ensures Valid()
      ensures Snapshot() == RecordMove(old(Snapshot()), phase, scoreLoss, winrateLoss)
    {
      total.Update(scoreLoss, winrateLoss);
      Accumulator(phase).Update(scoreLoss, winrateLoss);
    }
  }
}
