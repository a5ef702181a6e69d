/**
 * Per-game reports of src/analysis.js: `buildGameReport`, which folds one
 * player's moves into the four phase accumulators, and
 * `computeMoveQuality`, which sorts every known move into a quality bucket
 * per side and per phase.
 */
module Reports {
  import opened Wrappers
  import opened Utils
  import opened ReviewData
  import opened Series
  import opened Phases
  import opened PhaseStats

  /** `finalizePhaseStats` of each phase. */
  datatype FinalPhases = FinalPhases(total: FinalStats, opening: FinalStats, middle: FinalStats, end: FinalStats)

  function FinalizeRaw(r: RawPhases): (f: FinalPhases)
    ensures f.total.moves == r.total.moves && f.opening.moves == r.opening.moves
    ensures f.middle.moves == r.middle.moves && f.end.moves == r.end.moves
  {
    FinalPhases(FinalizePhaseStats(r.total), FinalizePhaseStats(r.opening),
                FinalizePhaseStats(r.middle), FinalizePhaseStats(r.end))
  }

  datatype GameReport = GameReport(
    id: nat,
    gameLabel: string,
    result: GameResult,
    playerSide: Side,
    ranked: bool,
    phases: FinalPhases,
    rawPhases: RawPhases)

  /** `computeWinrateLosses(analysis.metadata?.win_rates, movesLength)`. */
  function WinrateLossesOf(a: Analysis): (w: seq<Option<real>>)
    ensures |w| == MovesLength(a)
  {
    LossSeries(WinRatesOf(a), MovesLength(a))
  }

  /** Move `m` counts for `side`: its score loss is known and `side` made it. */
  predicate Counts(a: Analysis, side: Side, m: int)
  {
    ScoreLossOf(a, m).Some? && GetMoveColor(m, InitialPlayer(a)) == side
  }

  /** The player statistics after the loop of `buildGameReport` has seen moves 1..k. */
  function PhasesUpTo(a: Analysis, side: Side, k: nat): (r: RawPhases)
    requires k <= MovesLength(a)
    ensures RawShaped(r)
  {
    if k == 0 then InitRawPhases()
    else
      var prev := PhasesUpTo(a, side, k - 1);
      if Counts(a, side, k) then RecordMove(prev, PhaseOf(k), ScoreLossOf(a, k).value, WinrateLossesOf(a)[k - 1])
      else prev
  }

  /** `buildGameReport(game, analysis, playerId)` as a value. */
  function GameReportOf(game: Game, analysis: Option<Analysis>, playerId: string): (r: Option<GameReport>)
    ensures r.None? <==> analysis.None? || GetPlayerSide(game, playerId).None?
    ensures r.Some? ==>
              && r.value.id == game.id
              && r.value.playerSide == GetPlayerSide(game, playerId).value
              && r.value.result == GetResultForPlayer(game, playerId)
              && r.value.gameLabel == GetGameLabel(game)
              && r.value.ranked == game.ranked
              && r.value.phases == FinalizeRaw(r.value.rawPhases)
              && RawShaped(r.value.rawPhases)
  {
    var side := GetPlayerSide(game, playerId);
    if analysis.None? || side.None? then None
    else
      var raw := PhasesUpTo(analysis.value, side.value, MovesLength(analysis.value));
      Some(GameReport(game.id, GetGameLabel(game), GetResultForPlayer(game, playerId), side.value,
                      game.ranked, FinalizeRaw(raw), raw))
  }

  /** `buildGameReport`: a fresh set of player statistics, one pass over the moves. */
  method BuildGameReport(game: Game, analysis: Option<Analysis>, playerId: string) returns (r: Option<GameReport>)
    ensures r == GameReportOf(game, analysis, playerId)
  {
    var playerSide := GetPlayerSide(game, playerId);
    var phases := new PlayerStats();
    if analysis.None? || playerSide.None? {
      return None;
    }
    var a := analysis.value;
    var side := playerSide.value;
    var movesLength := MovesLength(a);
    var initialPlayer := InitialPlayer(a);
    var winrateLosses := ComputeWinrateLosses(WinRatesOf(a), movesLength);
    for moveNumber := 1 to movesLength + 1
      invariant phases.Valid() && fresh(phases.Repr)
      invariant phases.Snapshot() == PhasesUpTo(a, side, moveNumber - 1)
    {
      var scoreLoss := ScoreLossOf(a, moveNumber);
      var winrateLoss := winrateLosses[moveNumber - 1];
      if scoreLoss.None? {
        continue;
      }
      var moveColor := GetMoveColor(moveNumber, initialPlayer);
      if moveColor != side {
        continue;
      }
      phases.Record(PhaseOf(moveNumber), scoreLoss.value, winrateLoss);
    }
    var raw := phases.Snapshot();
    r := Some(GameReport(game.id, GetGameLabel(game), GetResultForPlayer(game, playerId), side,
                         game.ranked, FinalizeRaw(raw), raw));
  }

  /** Every prefix of the fold is consistent, and its total is the sum of its three phases. */
  lemma {:induction false} PhasesUpToConsistent(a: Analysis, side: Side, k: nat)
    requires k <= MovesLength(a)
    ensures RawConsistent(PhasesUpTo(a, side, k))
  {
    if k == 0 {
      InitRawConsistent();
    } else {
      PhasesUpToConsistent(a, side, k - 1);
      if Counts(a, side, k) {
        RecordMoveConsistent(PhasesUpTo(a, side, k - 1), PhaseOf(k), ScoreLossOf(a, k).value, WinrateLossesOf(a)[k - 1]);
      }
    }
  }

  /** In every report, total = opening + middle + end, field by field, and each phase is consistent. */
  lemma ReportTotalIsSumOfPhases(game: Game, analysis: Option<Analysis>, playerId: string)
    requires GameReportOf(game, analysis, playerId).Some?
    ensures var raw := GameReportOf(game, analysis, playerId).value.rawPhases;
            && RawConsistent(raw)
            && raw.total == Merge(Merge(raw.opening, raw.middle), raw.end)
  {
    var side := GetPlayerSide(game, playerId).value;
    PhasesUpToConsistent(analysis.value, side, MovesLength(analysis.value));
  }

  /** The moves among 1..k that count for `side`, restricted to one phase unless `phase` is `None`. */
  ghost function OwnMoves(a: Analysis, side: Side, k: nat, phase: Option<Phase>): set<int>
  {
    set m | 1 <= m <= k && Counts(a, side, m) && (phase.None? || PhaseOf(m) == phase.value)
  }

  lemma OwnMovesStep(a: Analysis, side: Side, k: nat, phase: Option<Phase>)
    requires k >= 1
    ensures OwnMoves(a, side, k, phase) ==
              OwnMoves(a, side, k - 1, phase) +
              (if Counts(a, side, k) && (phase.None? || PhaseOf(k) == phase.value) then {k} else {})
    ensures k !in OwnMoves(a, side, k - 1, phase)
  {
  }

  /** Move `k` adds one to the count of own moves exactly when it counts (in the phase, if one is given). */
  lemma OwnMovesCount(a: Analysis, side: Side, k: nat, phase: Option<Phase>)
    requires k >= 1
    ensures |OwnMoves(a, side, k, phase)| ==
              |OwnMoves(a, side, k - 1, phase)| + (if Counts(a, side, k) && (phase.None? || PhaseOf(k) == phase.value) then 1 else 0)
  {
    OwnMovesStep(a, side, k, phase);
  }

  /** One step of the fold counts move `k` once in the total... */
  lemma TotalStep(a: Analysis, side: Side, k: nat)
    requires 1 <= k <= MovesLength(a)
    ensures PhasesUpTo(a, side, k).total.moves ==
              PhasesUpTo(a, side, k - 1).total.moves + (if Counts(a, side, k) then 1 else 0)
  {
  }

  /** ...and once in its own phase. */
  lemma PhaseStep(a: Analysis, side: Side, k: nat, p: Phase)
    requires 1 <= k <= MovesLength(a)
    ensures PhaseStatsOf(PhasesUpTo(a, side, k), p).moves ==
              PhaseStatsOf(PhasesUpTo(a, side, k - 1), p).moves + (if Counts(a, side, k) && PhaseOf(k) == p then 1 else 0)
  {
  }

  /** A report's total counts exactly the moves with a known loss made by the player's side. */
  lemma {:induction false} TotalCountsOwnMoves(a: Analysis, side: Side, k: nat)
    requires k <= MovesLength(a)
    ensures PhasesUpTo(a, side, k).total.moves == |OwnMoves(a, side, k, None)|
  {
    if k > 0 {
      TotalCountsOwnMoves(a, side, k - 1);
      TotalStep(a, side, k);
      OwnMovesCount(a, side, k, None);
    }
  }

  /** Each phase counts exactly those moves of its own phase. */
  lemma {:induction false} PhaseCountsOwnMoves(a: Analysis, side: Side, k: nat, p: Phase)
    requires k <= MovesLength(a)
    ensures PhaseStatsOf(PhasesUpTo(a, side, k), p).moves == |OwnMoves(a, side, k, Some(p))|
  {
    if k > 0 {
      PhaseCountsOwnMoves(a, side, k - 1, p);
      PhaseStep(a, side, k, p);
      OwnMovesCount(a, side, k, Some(p));
    }
  }

  /** Per-side histograms over `QUALITY_BUCKETS`. */
  datatype SideHistograms = SideHistograms(black: seq<nat>, white: seq<nat>)

  /** The result of `computeMoveQuality`: histograms for the whole game and for each phase. */
  datatype MoveQuality = MoveQuality(all: SideHistograms, opening: SideHistograms, middle: SideHistograms, end: SideHistograms)

  predicate HistShaped(h: SideHistograms)
  {
    |h.black| == QualityBucketCount && |h.white| == QualityBucketCount
  }

  predicate QualityShaped(q: MoveQuality)
  {
    HistShaped(q.all) && HistShaped(q.opening) && HistShaped(q.middle) && HistShaped(q.end)
  }

  function SideHistogram(h: SideHistograms, side: Side): seq<nat>
  {
    match side
    case Black => h.black
    case White => h.white
  }

  /** `histogram[bucket] += 1`; every bucket index the classifier returns is in range. */
  function Increment(s: seq<nat>, bucket: nat): (r: seq<nat>)
    ensures |r| == |s|
  {
    if bucket < |s| then s[bucket := s[bucket] + 1] else s
  }

  function BumpSide(h: SideHistograms, side: Side, bucket: nat): (r: SideHistograms)
    ensures HistShaped(h) ==> HistShaped(r)
  {
    match side
    case Black => h.(black := Increment(h.black, bucket))
    case White => h.(white := Increment(h.white, bucket))
  }

  function HistogramsOf(q: MoveQuality, phase: Phase): SideHistograms
  {
    match phase
    case Opening => q.opening
    case Middle => q.middle
    case End => q.end
  }

  function EmptyQuality(): (q: MoveQuality)
    ensures QualityShaped(q)
  {
    var h := SideHistograms(Zeros(QualityBucketCount), Zeros(QualityBucketCount));
    MoveQuality(h, h, h, h)
  }

  /** Counts move `m` in `all` and in its own phase, under its side and its bucket. */
  function CountMove(q: MoveQuality, side: Side, phase: Phase, bucket: nat): (r: MoveQuality)
    ensures QualityShaped(q) ==> QualityShaped(r)
  {
    var all := BumpSide(q.all, side, bucket);
    match phase
    case Opening => q.(all := all, opening := BumpSide(q.opening, side, bucket))
    case Middle => q.(all := all, middle := BumpSide(q.middle, side, bucket))
    case End => q.(all := all, end := BumpSide(q.end, side, bucket))
  }

  /** The histograms after the loop of `computeMoveQuality` has seen moves 1..k. */
  function QualityUpTo(a: Analysis, k: nat): (q: MoveQuality)
    ensures QualityShaped(q)
  {
    if k == 0 then EmptyQuality()
    else
      var prev := QualityUpTo(a, k - 1);
      var loss := ScoreLossOf(a, k);
      if loss.None? then prev
      else CountMove(prev, GetMoveColor(k, InitialPlayer(a)), PhaseOf(k), GetQualityBucket(loss.value))
  }

  /** `computeMoveQuality(analysis)`. */
  method ComputeMoveQuality(a: Analysis) returns (quality: MoveQuality)
    ensures quality == QualityUpTo(a, MovesLength(a))
  {
    var movesLength := MovesLength(a);
    var initialPlayer := InitialPlayer(a);
    quality := EmptyQuality();
    for moveNumber := 1 to movesLength + 1
      invariant quality == QualityUpTo(a, moveNumber - 1)
    {
      var scoreLoss := ScoreLossOf(a, moveNumber);
      if scoreLoss.None? {
        continue;
      }
      var side := GetMoveColor(moveNumber, initialPlayer);
      var phase := PhaseOf(moveNumber);
      var bucket := GetQualityBucket(scoreLoss.value);
      quality := CountMove(quality, side, phase, bucket);
    }
  }

  function AddHistograms(a: SideHistograms, b: SideHistograms): SideHistograms
  {
    SideHistograms(AddSeq(a.black, b.black), AddSeq(a.white, b.white))
  }

  function PhaseSum(q: MoveQuality): SideHistograms
  {
    AddHistograms(AddHistograms(q.opening, q.middle), q.end)
  }

  /** Counting one move keeps `all` equal to the sum of the phases. */
  lemma CountMoveKeepsPhaseSum(q: MoveQuality, side: Side, phase: Phase, bucket: nat)
    requires QualityShaped(q) && bucket < QualityBucketCount && q.all == PhaseSum(q)
    ensures CountMove(q, side, phase, bucket).all == PhaseSum(CountMove(q, side, phase, bucket))
  {
    var r := CountMove(q, side, phase, bucket);
    var t := PhaseSum(r);
    assert r.all.black == t.black;
    assert r.all.white == t.white;
  }

  /** `all` is the bucket-wise sum of the three phase histograms, for each side. */
  lemma {:induction false} AllIsSumOfPhases(a: Analysis, k: nat)
    ensures QualityUpTo(a, k).all == PhaseSum(QualityUpTo(a, k))
  {
    if k == 0 {
      var q := EmptyQuality();
      assert q.all.black == PhaseSum(q).black;
      assert q.all.white == PhaseSum(q).white;
    } else {
      AllIsSumOfPhases(a, k - 1);
      var loss := ScoreLossOf(a, k);
      if loss.Some? {
        CountMoveKeepsPhaseSum(QualityUpTo(a, k - 1), GetMoveColor(k, InitialPlayer(a)), PhaseOf(k),
                               GetQualityBucket(loss.value));
      }
    }
  }

  /** Counting a move under `moveSide` adds one to that side's `all` histogram and leaves the other side's total alone. */
  lemma CountMoveSum(q: MoveQuality, moveSide: Side, phase: Phase, bucket: nat, side: Side)
    requires QualityShaped(q) && bucket < QualityBucketCount
    ensures Sum(SideHistogram(CountMove(q, moveSide, phase, bucket).all, side)) ==
              Sum(SideHistogram(q.all, side)) + (if moveSide == side then 1 else 0)
  {
    var h := SideHistogram(q.all, side);
    if moveSide == side {
      assert SideHistogram(CountMove(q, moveSide, phase, bucket).all, side) == Bump(h, bucket);
      SumBump(h, bucket);
    } else {
      assert SideHistogram(CountMove(q, moveSide, phase, bucket).all, side) == h;
    }
  }

  /**
   * A side's `all` histogram holds exactly the moves that count for it, so the
   * viewer's histogram and the report's total agree for the player's side.
   */
  lemma {:induction false} QualityCountsOwnMoves(a: Analysis, side: Side, k: nat)
    ensures Sum(SideHistogram(QualityUpTo(a, k).all, side)) == |OwnMoves(a, side, k, None)|
  {
    if k == 0 {
      QualityStart(a, side);
    } else {
      QualityCountsOwnMoves(a, side, k - 1);
      QualityStep(a, side, k);
    }
  }

  /** Before the first move, the histograms are empty and no move counts. */
  lemma QualityStart(a: Analysis, side: Side)
    ensures Sum(SideHistogram(QualityUpTo(a, 0).all, side)) == |OwnMoves(a, side, 0, None)| == 0
  {
    assert OwnMoves(a, side, 0, None) == {};
    SumZeros(QualityBucketCount);
    assert SideHistogram(QualityUpTo(a, 0).all, side) == Zeros(QualityBucketCount);
  }

  /**
   * One step of `computeMoveQuality` adds one to a side's `all` histogram
   * exactly when the move counts for it, so the histogram keeps matching the
   * side's own moves.
   */
  lemma QualityStep(a: Analysis, side: Side, k: nat)
    requires k >= 1
    requires Sum(SideHistogram(QualityUpTo(a, k - 1).all, side)) == |OwnMoves(a, side, k - 1, None)|
    ensures Sum(SideHistogram(QualityUpTo(a, k).all, side)) == |OwnMoves(a, side, k, None)|
  {
    OwnMovesCount(a, side, k, None);
    var loss := ScoreLossOf(a, k);
    if loss.Some? {
      var p := QualityUpTo(a, k - 1);
      var moveSide := GetMoveColor(k, InitialPlayer(a));
      var b := GetQualityBucket(loss.value);
      assert QualityUpTo(a, k) == CountMove(p, moveSide, PhaseOf(k), b);
      CountMoveSum(p, moveSide, PhaseOf(k), b, side);
    }
  }

  /** The report's move total and the viewer's histogram for the same side agree. */
  lemma ReportAgreesWithQuality(game: Game, a: Analysis, playerId: string)
    requires GetPlayerSide(game, playerId).Some?
    ensures var side := GetPlayerSide(game, playerId).value;
            GameReportOf(game, Some(a), playerId).value.rawPhases.total.moves ==
              Sum(SideHistogram(QualityUpTo(a, MovesLength(a)).all, side))
  {
    var side := GetPlayerSide(game, playerId).value;
    TotalCountsOwnMoves(a, side, MovesLength(a));
    QualityCountsOwnMoves(a, side, MovesLength(a));
  }
}
