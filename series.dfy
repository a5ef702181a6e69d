/**
 * The series-diff rule of src/analysis.js: an aligned score or win-rate
 * series and a move count become one loss per move, the absolute change
 * across that move, or `None` where it is unknown.
 */
module Series {
  import opened Wrappers
  import opened ReviewData

  function Abs(x: real): (r: real)
    ensures r >= 0.0 && (r == x || r == -x)
  {
    if x < 0.0 then -x else x
  }

  /** The series carries the position before move 1: it has at least `movesLength + 1` samples. */
  predicate HasInitial(series: seq<Sample>, movesLength: nat)
  {
    |series| >= movesLength + 1
  }

  /** The sample index before move `m`; the one after it is one more. */
  function PrevIndex(series: seq<Sample>, movesLength: nat, m: int): int
  {
    if HasInitial(series, movesLength) then m - 1 else m - 2
  }

  /** The loss of move `m`: the absolute change between the two samples around it. */
  function LossAt(series: seq<Sample>, movesLength: nat, m: int): (r: Option<real>)
    ensures r.Some? ==> r.value >= 0.0
  {
    var prev := PrevIndex(series, movesLength, m);
    var next := prev + 1;
    if prev < 0 || next >= |series| then None
    else if series[prev].None? || series[next].None? then None
    else Some(Abs(series[next].value - series[prev].value))
  }

  /** `computeScoreLosses` / `computeWinrateLosses` as a value: one entry per move. */
  function LossSeries(series: Option<seq<Sample>>, movesLength: nat): (r: seq<Option<real>>)
    ensures |r| == movesLength
  {
    if series.None? || |series.value| < 2 then seq(movesLength, i => None)
    else seq(movesLength, i requires 0 <= i < movesLength => LossAt(series.value, movesLength, i + 1))
  }

  /**
   * The loop of `computeScoreLosses`: a pre-filled array of nulls, then one
   * entry per move whose two samples are in range and are numbers.
   */
  method ComputeLosses(series: Option<seq<Sample>>, movesLength: nat) returns (losses: seq<Option<real>>)
    ensures losses == LossSeries(series, movesLength)
  {
    var a := new Option<real>[movesLength](_ => None);
    if series.None? || |series.value| < 2 {
      return a[..];
    }
    var s := series.value;
    var hasInitial := |s| >= movesLength + 1;
    for moveNumber := 1 to movesLength + 1
      invariant forall i :: 0 <= i < movesLength ==>
                  a[i] == if i < moveNumber - 1 then LossAt(s, movesLength, i + 1) else None
    {
      var prevIndex := if hasInitial then moveNumber - 1 else moveNumber - 2;
      var nextIndex := if hasInitial then moveNumber else moveNumber - 1;
      if prevIndex < 0 || nextIndex >= |s| {
        continue;
      }
      var prevScore := s[prevIndex];
      var nextScore := s[nextIndex];
      if prevScore.None? || nextScore.None? {
        continue;
      }
      a[moveNumber - 1] := Some(Abs(nextScore.value - prevScore.value));
    }
    return a[..];
  }

  /** `computeScoreLosses(scores, movesLength)`. */
  method ComputeScoreLosses(scores: Option<seq<Sample>>, movesLength: nat) returns (losses: seq<Option<real>>)
    ensures |losses| == movesLength
    ensures losses == LossSeries(scores, movesLength)
  {
    losses := ComputeLosses(scores, movesLength);
  }

  /** `computeWinrateLosses(winRates, movesLength)`: the same rule over the win-rate series. */
  method ComputeWinrateLosses(winRates: Option<seq<Sample>>, movesLength: nat) returns (losses: seq<Option<real>>)
    ensures |losses| == movesLength
    ensures losses == LossSeries(winRates, movesLength)
  {
    losses := ComputeLosses(winRates, movesLength);
  }

  /** A missing series, or one with fewer than two samples, gives no loss at all. */
  lemma ShortSeriesAllUnknown(series: Option<seq<Sample>>, movesLength: nat)
    requires series.None? || |series.value| < 2
    ensures forall i :: 0 <= i < movesLength ==> LossSeries(series, movesLength)[i].None?
  {
  }

  /** Every known loss is non-negative. */
  lemma LossesNonNegative(series: Option<seq<Sample>>, movesLength: nat)
    ensures forall i :: 0 <= i < movesLength && LossSeries(series, movesLength)[i].Some? ==>
              LossSeries(series, movesLength)[i].value >= 0.0
  {
  }

  /** With the baseline sample, move `m`'s loss is `|s[m] - s[m-1]|`. */
  lemma WithBaseline(s: seq<Sample>, movesLength: nat, m: nat)
    requires |s| >= 2 && |s| >= movesLength + 1 && 1 <= m <= movesLength
    ensures LossSeries(Some(s), movesLength)[m - 1] ==
              if s[m - 1].Some? && s[m].Some? then Some(Abs(s[m].value - s[m - 1].value)) else None
  {
  }

  /**
   * Without it, move `m`'s loss is `|s[m-1] - s[m-2]|`: move 1 has none, and
   * neither has a move past the end of the series.
   */
  lemma WithoutBaseline(s: seq<Sample>, movesLength: nat, m: nat)
    requires 2 <= |s| < movesLength + 1 && 1 <= m <= movesLength
    ensures m == 1 || m > |s| ==> LossSeries(Some(s), movesLength)[m - 1].None?
    ensures 2 <= m <= |s| ==>
              LossSeries(Some(s), movesLength)[m - 1] ==
                if s[m - 2].Some? && s[m - 1].Some? then Some(Abs(s[m - 1].value - s[m - 2].value)) else None
  {
  }

  /** The worked example: samples 0, 1, 3, 2 over three moves give losses 1, 2, 1. */
  lemma FourSamplesThreeMoves()
    ensures LossSeries(Some([Some(0.0), Some(1.0), Some(3.0), Some(2.0)]), 3) == [Some(1.0), Some(2.0), Some(1.0)]
  {
  }

  /** `Math.max(0, Math.min(len - 1, target))`: a sample index clamped into the series. */
  function SampleIndex(len: int, target: int): (r: int)
    ensures r >= 0
    ensures len >= 1 ==> r < len
    ensures 0 <= target < len ==> r == target
    ensures target < 0 ==> r == 0
    ensures len >= 1 && target >= len ==> r == len - 1
  {
    var upper := if len - 1 < target then len - 1 else target;
    if upper < 0 then 0 else upper
  }
}
