/**
 * `aggregateReports` of src/analysis.js: every game with a report is added
 * once to the `combined` totals and once to the totals of the side the
 * player had in it.
 */
module Aggregate {
  import opened Wrappers
  import opened Utils
  import opened ReviewData
  import opened PhaseStats
  import opened Reports

  /** One aggregate target: game count, wins, losses and the four phase statistics. */
  datatype Totals = Totals(games: nat, wins: nat, losses: nat, phases: RawPhases)

  /** `baseAggregate()`. */
  function InitTotals(): (t: Totals)
    ensures t.games == 0 && t.wins == 0 && t.losses == 0 && RawShaped(t.phases)
  {
    Totals(0, 0, 0, InitRawPhases())
  }

  /** What one report contributes to a target. */
  function ReportTotals(r: GameReport): (t: Totals)
    ensures t.games == 1 && t.wins + t.losses <= 1
    ensures t.wins == 1 <==> r.result == Win
    ensures t.losses == 1 <==> r.result == Loss
  {
    Totals(1, if r.result == Win then 1 else 0, if r.result == Loss then 1 else 0, r.rawPhases)
  }

  /** Adds the counters and merges the phases of two targets. */
  function Combine(t: Totals, u: Totals): (c: Totals)
    ensures c.games == t.games + u.games && c.wins == t.wins + u.wins && c.losses == t.losses + u.losses
    ensures RawShaped(t.phases) ==> RawShaped(c.phases)
  {
    MergeRawShaped(t.phases, u.phases);
    Totals(t.games + u.games, t.wins + u.wins, t.losses + u.losses, MergeRaw(t.phases, u.phases))
  }

  lemma CombineInit(t: Totals)
    requires RawShaped(t.phases)
    ensures Combine(InitTotals(), t) == t && Combine(t, InitTotals()) == t
  {
    MergeRawInit(t.phases);
  }

  lemma CombineCommutes(t: Totals, u: Totals)
    requires RawShaped(t.phases) && RawShaped(u.phases)
    ensures Combine(t, u) == Combine(u, t)
  {
    MergeRawCommutes(t.phases, u.phases);
  }

  lemma CombineAssociates(t: Totals, u: Totals, v: Totals)
    requires RawShaped(t.phases) && RawShaped(u.phases) && RawShaped(v.phases)
    ensures Combine(Combine(t, u), v) == Combine(t, Combine(u, v))
  {
    MergeRawAssociates(t.phases, u.phases, v.phases);
  }

  /** `buildGameReport(game, analyses.get(game.id), playerId)`. */
  function ReportFor(game: Game, analyses: map<nat, Analysis>, playerId: string): (r: Option<GameReport>)
    ensures r.None? <==> game.id !in analyses || GetPlayerSide(game, playerId).None?
    ensures r.Some? ==> RawShaped(r.value.rawPhases) && r.value.id == game.id
  {
    GameReportOf(game, if game.id in analyses then Some(analyses[game.id]) else None, playerId)
  }

  /** The report of every game, in game order (`null` for a game without one). */
  function ReportsFor(games: seq<Game>, analyses: map<nat, Analysis>, playerId: string): (rs: seq<Option<GameReport>>)
    ensures |rs| == |games|
    ensures forall i :: 0 <= i < |games| ==> rs[i] == ReportFor(games[i], analyses, playerId)
  {
    seq(|games|, i requires 0 <= i < |games| => ReportFor(games[i], analyses, playerId))
  }

  /** Every report in the list has shaped phase statistics. */
  ghost predicate AllShaped(rs: seq<Option<GameReport>>)
  {
    forall i :: 0 <= i < |rs| && rs[i].Some? ==> RawShaped(rs[i].value.rawPhases)
  }

  lemma ReportsForShaped(games: seq<Game>, analyses: map<nat, Analysis>, playerId: string)
    ensures AllShaped(ReportsFor(games, analyses, playerId))
  {
  }

  /** The targets a report goes to: `None` stands for `combined`, `Some(side)` for that side's target. */
  predicate Selects(target: Option<Side>, r: GameReport)
  {
    target.None? || r.playerSide == target.value
  }

  /** A target after one game: it takes the game's report if there is one and the target selects it. */
  function Take(t: Totals, r: Option<GameReport>, target: Option<Side>): Totals
  {
    if r.Some? && Selects(target, r.value) then Combine(t, ReportTotals(r.value)) else t
  }

  /** A target after the `forEach` has seen the reports `rs`. */
  function Fold(rs: seq<Option<GameReport>>, target: Option<Side>): (t: Totals)
    ensures RawShaped(t.phases)
    ensures t.wins + t.losses <= t.games <= |rs|
  {
    if |rs| == 0 then InitTotals() else Take(Fold(rs[..|rs| - 1], target), rs[|rs| - 1], target)
  }

  /** The `reports` list: the reports that exist, in game order. */
  function Present(rs: seq<Option<GameReport>>): (out: seq<GameReport>)
    ensures |out| <= |rs|
  {
    if |rs| == 0 then []
    else
      var prev := Present(rs[..|rs| - 1]);
      if rs[|rs| - 1].Some? then prev + [rs[|rs| - 1].value] else prev
  }

  /** Every report is counted once in `combined`: its game count is the length of the `reports` list. */
  lemma {:induction false} CombinedCountsReports(rs: seq<Option<GameReport>>)
    ensures Fold(rs, None).games == |Present(rs)|
  {
    if |rs| > 0 {
      CombinedCountsReports(rs[..|rs| - 1]);
    }
  }

  /** `combined` is black + white, for the counters and for every phase statistic. */
  lemma {:induction false} CombinedIsBlackPlusWhite(rs: seq<Option<GameReport>>)
    requires AllShaped(rs)
    ensures Fold(rs, None) == Combine(Fold(rs, Some(Black)), Fold(rs, Some(White)))
  {
    if |rs| == 0 {
      CombineInit(InitTotals());
    } else {
      var init := rs[..|rs| - 1];
      assert AllShaped(init) by {
        forall i | 0 <= i < |init| && init[i].Some? ensures RawShaped(init[i].value.rawPhases) {
          assert init[i] == rs[i];
        }
      }
      CombinedIsBlackPlusWhite(init);
      var b := Fold(init, Some(Black));
      var w := Fold(init, Some(White));
      var r := rs[|rs| - 1];
      if r.Some? {
        var d := ReportTotals(r.value);
        CombineAssociates(b, w, d);
        if r.value.playerSide == Black {
          CombineCommutes(w, d);
          CombineAssociates(b, d, w);
        }
      }
    }
  }

  /** Folding a concatenation is combining the folds of its parts. */
  lemma {:induction false} FoldConcat(r1: seq<Option<GameReport>>, r2: seq<Option<GameReport>>, target: Option<Side>)
    requires AllShaped(r2)
    ensures Fold(r1 + r2, target) == Combine(Fold(r1, target), Fold(r2, target))
  {
    var t1 := Fold(r1, target);
    if |r2| == 0 {
      assert r1 + r2 == r1;
      CombineInit(t1);
    } else {
      var init := r2[..|r2| - 1];
      assert (r1 + r2)[..|r1 + r2| - 1] == r1 + init;
      assert (r1 + r2)[|r1 + r2| - 1] == r2[|r2| - 1];
      assert AllShaped(init) by {
        forall i | 0 <= i < |init| && init[i].Some? ensures RawShaped(init[i].value.rawPhases) {
          assert init[i] == r2[i];
        }
      }
      FoldConcat(r1, init, target);
      var r := r2[|r2| - 1];
      if r.Some? && Selects(target, r.value) {
        CombineAssociates(t1, Fold(init, target), ReportTotals(r.value));
      }
    }
  }

  /** A report, if there is one, has shaped phase statistics. */
  predicate ShapedReport(r: Option<GameReport>)
  {
    r.Some? ==> RawShaped(r.value.rawPhases)
  }

  /** Two reports taken by one target in either order give the same target. */
  lemma TakeSwap(t: Totals, x: Option<GameReport>, y: Option<GameReport>, target: Option<Side>)
    requires RawShaped(t.phases) && ShapedReport(x) && ShapedReport(y)
    ensures Take(Take(t, x, target), y, target) == Take(Take(t, y, target), x, target)
  {
    if x.Some? && Selects(target, x.value) && y.Some? && Selects(target, y.value) {
      var xt, yt := ReportTotals(x.value), ReportTotals(y.value);
      CombineAssociates(t, xt, yt);
      CombineAssociates(t, yt, xt);
      CombineCommutes(xt, yt);
    }
  }

  /** Swapping the last two reports changes no target. */
  lemma SwapLastTwo(p: seq<Option<GameReport>>, x: Option<GameReport>, y: Option<GameReport>, target: Option<Side>)
    requires ShapedReport(x) && ShapedReport(y)
    ensures Fold(p + [x, y], target) == Fold(p + [y, x], target)
  {
    assert p + [x, y] == (p + [x]) + [y];
    assert p + [y, x] == (p + [y]) + [x];
    FoldAppend(p, x, target);
    FoldAppend(p + [x], y, target);
    FoldAppend(p, y, target);
    FoldAppend(p + [y], x, target);
    TakeSwap(Fold(p, target), x, y, target);
  }

  /** Swapping two neighbouring reports changes no target. */
  lemma SwapReports(p: seq<Option<GameReport>>, x: Option<GameReport>, y: Option<GameReport>, q: seq<Option<GameReport>>, target: Option<Side>)
    requires ShapedReport(x) && ShapedReport(y) && AllShaped(q)
    ensures Fold(p + [x, y] + q, target) == Fold(p + [y, x] + q, target)
  {
    SwapLastTwo(p, x, y, target);
    FoldConcat(p + [x, y], q, target);
    FoldConcat(p + [y, x], q, target);
  }

  /** Swapping the reports at `i` and `i + 1` of a list changes no target. */
  lemma SwapAt(rs: seq<Option<GameReport>>, i: nat, target: Option<Side>)
    requires AllShaped(rs) && i + 1 < |rs|
    ensures Fold(rs[..i] + [rs[i + 1], rs[i]] + rs[i + 2..], target) == Fold(rs, target)
  {
    var q := rs[i + 2..];
    assert rs == rs[..i] + [rs[i], rs[i + 1]] + q;
    assert AllShaped(q) by {
      forall j | 0 <= j < |q| && q[j].Some? ensures RawShaped(q[j].value.rawPhases) {
        assert q[j] == rs[i + 2 + j];
      }
    }
    SwapReports(rs[..i], rs[i], rs[i + 1], q, target);
  }

  lemma ReportsForSwapped(games: seq<Game>, i: nat, analyses: map<nat, Analysis>, playerId: string)
    requires i + 1 < |games|
    ensures var rs := ReportsFor(games, analyses, playerId);
            ReportsFor(games[..i] + [games[i + 1], games[i]] + games[i + 2..], analyses, playerId) ==
              rs[..i] + [rs[i + 1], rs[i]] + rs[i + 2..]
  {
    var rs := ReportsFor(games, analyses, playerId);
    var swapped := games[..i] + [games[i + 1], games[i]] + games[i + 2..];
    var rs' := ReportsFor(swapped, analyses, playerId);
    var expected := rs[..i] + [rs[i + 1], rs[i]] + rs[i + 2..];
    assert |rs'| == |expected|;
    forall j | 0 <= j < |rs'|
      ensures rs'[j] == expected[j]
    {
      if j < i {
        assert swapped[j] == games[j];
      } else if j == i {
        assert swapped[j] == games[i + 1];
      } else if j == i + 1 {
        assert swapped[j] == games[i];
      } else {
        assert swapped[j] == games[j];
      }
    }
  }

  /** Swapping two neighbouring games changes none of the three targets (so, by repeated swaps, neither does any reordering). */
  lemma SwapGames(games: seq<Game>, i: nat, analyses: map<nat, Analysis>, playerId: string, target: Option<Side>)
    requires i + 1 < |games|
    ensures Fold(ReportsFor(games[..i] + [games[i + 1], games[i]] + games[i + 2..], analyses, playerId), target) ==
            Fold(ReportsFor(games, analyses, playerId), target)
  {
    var rs := ReportsFor(games, analyses, playerId);
    var swapped := games[..i] + [games[i + 1], games[i]] + games[i + 2..];
    ReportsForSwapped(games, i, analyses, playerId);
    ReportsForShaped(games, analyses, playerId);
    SwapAt(rs, i, target);
  }

  /** `finalizeAggregate`: the counters unchanged and every phase finalized. */
  datatype FinalTotals = FinalTotals(games: nat, wins: nat, losses: nat, phases: FinalPhases)

  function FinalizeTotals(t: Totals): (f: FinalTotals)
    ensures f.games == t.games && f.wins == t.wins && f.losses == t.losses
    ensures f.phases == FinalizeRaw(t.phases)
    ensures f.phases.total.moves == t.phases.total.moves && f.phases.opening.moves == t.phases.opening.moves
    ensures f.phases.middle.moves == t.phases.middle.moves && f.phases.end.moves == t.phases.end.moves
  {
    FinalTotals(t.games, t.wins, t.losses, FinalizeRaw(t.phases))
  }

  datatype AggregateResult = AggregateResult(combined: FinalTotals, black: FinalTotals, white: FinalTotals, reports: seq<GameReport>)

  /** The result of `aggregateReports` for games whose reports are `rs`. */
  function AggregateOfReports(rs: seq<Option<GameReport>>): (r: AggregateResult)
    requires AllShaped(rs)
    ensures r.combined.games == |r.reports| == r.black.games + r.white.games
    ensures r.combined.wins == r.black.wins + r.white.wins && r.combined.losses == r.black.losses + r.white.losses
    ensures r.combined.wins + r.combined.losses <= r.combined.games
  {
    CombinedCountsReports(rs);
    CombinedIsBlackPlusWhite(rs);
    AggregateResult(FinalizeTotals(Fold(rs, None)), FinalizeTotals(Fold(rs, Some(Black))),
                    FinalizeTotals(Fold(rs, Some(White))), Present(rs))
  }

  /** `aggregateReports(games, analyses, playerId)` as a value. */
  function AggregateOf(games: seq<Game>, analyses: map<nat, Analysis>, playerId: string): AggregateResult
  {
    ReportsForShaped(games, analyses, playerId);
    AggregateOfReports(ReportsFor(games, analyses, playerId))
  }

  /** One aggregate target of `aggregateReports`, updated in place. */
  class SideTotals {
    var games: nat
    var wins: nat
    var losses: nat
    var phases: RawPhases

    function Snapshot(): Totals
      reads this
    {
      Totals(games, wins, losses, phases)
    }

    /** `baseAggregate()`. */
    constructor ()
      ensures Snapshot() == InitTotals()
    {
      games, wins, losses := 0, 0, 0;
      phases := InitRawPhases();
    }

    /**
     * The body of `[combined, aggTarget].forEach` for one target; the
     * nested loops over phases and bucket ids are `MergeRaw`.
     */
    method Add(report: GameReport)
      modifies this
      ensures Snapshot() == Combine(old(Snapshot()), ReportTotals(report))
    {
      games := games + 1;
      if report.result == Win {
        wins := wins + 1;
      }
      if report.result == Loss {
        losses := losses + 1;
      }
      phases := MergeRaw(phases, report.rawPhases);
    }
  }

  /** One more report for the fold. */
  lemma FoldAppend(rs: seq<Option<GameReport>>, r: Option<GameReport>, target: Option<Side>)
    ensures Fold(rs + [r], target) == Take(Fold(rs, target), r, target)
  {
    assert (rs + [r])[..|rs|] == rs;
  }

  lemma PresentAppend(rs: seq<Option<GameReport>>, r: Option<GameReport>)
    ensures Present(rs + [r]) == if r.Some? then Present(rs) + [r.value] else Present(rs)
  {
    assert (rs + [r])[..|rs|] == rs;
  }

  lemma ReportsForStep(games: seq<Game>, i: nat, analyses: map<nat, Analysis>, playerId: string)
    requires i < |games|
    ensures ReportsFor(games[..i + 1], analyses, playerId) == ReportsFor(games[..i], analyses, playerId) + [ReportFor(games[i], analyses, playerId)]
  {
  }

  /** The loop body of `aggregateReports`: the report goes to `combined` and to the target of its side. */
  method Accumulate(combined: SideTotals, black: SideTotals, white: SideTotals, report: Option<GameReport>)
    requires combined != black && combined != white && black != white
    modifies combined, black, white
    ensures combined.Snapshot() == Take(old(combined.Snapshot()), report, None)
    ensures black.Snapshot() == Take(old(black.Snapshot()), report, Some(Black))
    ensures white.Snapshot() == Take(old(white.Snapshot()), report, Some(White))
  {
    if report.Some? {
      combined.Add(report.value);
      if report.value.playerSide == Black {
        black.Add(report.value);
      } else {
        white.Add(report.value);
      }
    }
  }

  /** `aggregateReports`: one pass over the games, adding each report to `combined` and to its side. */
  method AggregateReports(games: seq<Game>, analyses: map<nat, Analysis>, playerId: string) returns (r: AggregateResult)
    ensures r == AggregateOf(games, analyses, playerId)
  {
    var combined := new SideTotals();
    var black := new SideTotals();
    var white := new SideTotals();
    var reports: seq<GameReport> := [];
    ghost var seen: seq<Option<GameReport>> := [];
    for i := 0 to |games|
      invariant seen == ReportsFor(games[..i], analyses, playerId)
      invariant combined.Snapshot() == Fold(seen, None)
      invariant black.Snapshot() == Fold(seen, Some(Black))
      invariant white.Snapshot() == Fold(seen, Some(White))
      invariant reports == Present(seen)
    {
      ReportsForStep(games, i, analyses, playerId);
      var game := games[i];
      var analysis := if game.id in analyses then Some(analyses[game.id]) else None;
      var report := BuildGameReport(game, analysis, playerId);
      FoldAppend(seen, report, None);
      FoldAppend(seen, report, Some(Black));
      FoldAppend(seen, report, Some(White));
      PresentAppend(seen, report);
      seen := seen + [report];
      if report.Some? {
        reports := reports + [report.value];
      }
      Accumulate(combined, black, white, report);
    }
    assert games[..|games|] == games;
    ReportsForShaped(games, analyses, playerId);
    r := AggregateResult(FinalizeTotals(combined.Snapshot()), FinalizeTotals(black.Snapshot()),
                         FinalizeTotals(white.Snapshot()), reports);
  }
}
