/**
 * The ingestion side of src/app.js: the game filter, the ranked option sent
 * to the directory, the global state and its reset, the sequential loop that
 * pages through a player's games and analyses them one at a time, and the
 * sample index the viewer shows. Directory pages and per-game outcomes are
 * oracles standing for src/api.js.
 */
module App {
  import opened Wrappers
  import opened Utils
  import opened ReviewData
  import opened Api
  import opened Series

  /** `getFilteredGames`' test: a ranked game is kept when ranked games are shown, a free one when free games are. */
  predicate Shown(game: Game, includeRanked: bool, includeFree: bool)
  {
    (game.ranked && includeRanked) || (!game.ranked && includeFree)
  }

  /** `state.games.filter(...)`. */
  function FilterGames(games: seq<Game>, includeRanked: bool, includeFree: bool): (r: seq<Game>)
    ensures |r| <= |games|
    ensures forall g :: g in r <==> g in games && Shown(g, includeRanked, includeFree)
    ensures forall g :: multiset(r)[g] == if Shown(g, includeRanked, includeFree) then multiset(games)[g] else 0
  {
    if |games| == 0 then []
    else
      var rest := FilterGames(games[1..], includeRanked, includeFree);
      assert games == [games[0]] + games[1..];
      assert forall g :: g in games <==> g == games[0] || g in games[1..];
      if Shown(games[0], includeRanked, includeFree) then [games[0]] + rest else rest
  }

  /** Filtering keeps the order: the filter of a concatenation is the concatenation of the filters. */
  lemma {:induction false} FilterConcat(a: seq<Game>, b: seq<Game>, includeRanked: bool, includeFree: bool)
    ensures FilterGames(a + b, includeRanked, includeFree) ==
            FilterGames(a, includeRanked, includeFree) + FilterGames(b, includeRanked, includeFree)
    decreases |a|
  {
    if |a| > 0 {
      assert (a + b)[1..] == a[1..] + b;
      FilterConcat(a[1..], b, includeRanked, includeFree);
    } else {
      assert a + b == b;
    }
  }

  /** Showing both kinds keeps every game, in order; showing neither keeps none. */
  lemma {:induction false} FilterExtremes(games: seq<Game>)
    ensures FilterGames(games, true, true) == games
    ensures FilterGames(games, false, false) == []
  {
    if |games| > 0 {
      FilterExtremes(games[1..]);
      assert games == [games[0]] + games[1..];
    }
  }

  /** Every game is ranked or free: the ranked and the free views together are as many games as the list. */
  lemma {:induction false} RankedPlusFree(games: seq<Game>)
    ensures |FilterGames(games, true, false)| + |FilterGames(games, false, true)| == |games|
  {
    if |games| > 0 {
      RankedPlusFree(games[1..]);
    }
  }

  /**
   * The ranked option of the directory request: `true` when only ranked
   * games are shown, `false` when only free ones are, and no option otherwise.
   */
  function RankedFilter(includeRanked: bool, includeFree: bool): (r: Option<bool>)
    ensures r == Some(true) <==> includeRanked && !includeFree
    ensures r == Some(false) <==> !includeRanked && includeFree
    ensures r.None? <==> includeRanked == includeFree
  {
    if includeRanked && !includeFree then Some(true)
    else if !includeRanked && includeFree then Some(false)
    else None
  }

  /** The ranked option keeps, on the server side, exactly the games the filter would keep on the client side. */
  lemma RankedFilterAgrees(game: Game, includeRanked: bool, includeFree: bool)
    requires RankedFilter(includeRanked, includeFree).Some?
    ensures Shown(game, includeRanked, includeFree) <==> game.ranked == RankedFilter(includeRanked, includeFree).value
  {
  }

  /**
   * The sample shown for move `moveNumber` in `updateCurrentMetrics`: the
   * move's own sample when the series starts before move 1, otherwise the one
   * before, clamped into the series.
   */
  function MetricsIndex(scoresLength: nat, movesLength: nat, moveNumber: int): (r: int)
    ensures r >= 0
    ensures scoresLength >= 1 ==> r < scoresLength
    ensures var wanted := if scoresLength >= movesLength + 1 then moveNumber else moveNumber - 1;
            0 <= wanted < scoresLength ==> r == wanted
    ensures var wanted := if scoresLength >= movesLength + 1 then moveNumber else moveNumber - 1;
            scoresLength >= 1 && wanted >= scoresLength ==> r == scoresLength - 1
    ensures var wanted := if scoresLength >= movesLength + 1 then moveNumber else moveNumber - 1;
            wanted < 0 ==> r == 0
  {
    var hasInitial := scoresLength >= movesLength + 1;
    SampleIndex(scoresLength, if hasInitial then moveNumber else moveNumber - 1)
  }

  /** The outcome of the review requests for one game. */
  datatype GameOutcome =
    | ReviewListFailed                 // `fetchAiReviewList` threw
    | NoReviews                        // the review list is empty
    | Analysed(analysis: Analysis)     // `fetchAnalysisForGame` returned
    | AnalysisFailed(message: string)  // `fetchAnalysisForGame` threw, with this message

  /** `err.message || 'Analysis failed'`. */
  function ErrorText(message: string): (t: string)
    ensures t != ""
    ensures message != "" ==> t == message
    ensures message == "" ==> t == "Analysis failed"
  {
    if message == "" then "Analysis failed" else message
  }

  predicate FullBoard(game: Game)
  {
    game.width == 19 && game.height == 19
  }

  /** The loop variables and the parts of `state` the loop writes. */
  datatype Ingest = Ingest(
    analyzed: nat,
    page: nat,
    hasNext: bool,
    games: seq<Game>,
    analyses: map<nat, Analysis>,
    errors: map<nat, string>)

  /** One game of the inner loop: skipped unless 19×19 with reviews; then either analysed or its error recorded. */
  function Visit(s: Ingest, game: Game, outcome: nat -> GameOutcome): Ingest
  {
    if !FullBoard(game) then s
    else
      match outcome(game.id)
      case ReviewListFailed => s
      case NoReviews => s
      case Analysed(a) =>
        s.(analyzed := s.analyzed + 1, games := s.games + [game], analyses := s.analyses[game.id := a])
      case AnalysisFailed(m) => s.(errors := s.errors[game.id := ErrorText(m)])
  }

  /** The inner `for` over a page's games: it stops as soon as the target is reached. */
  function VisitAll(s: Ingest, results: seq<Game>, target: nat, outcome: nat -> GameOutcome): Ingest
    decreases |results|
  {
    if |results| == 0 || s.analyzed >= target then s
    else VisitAll(Visit(s, results[0], outcome), results[1..], target, outcome)
  }

  /** The directory stops by page `from + 1` at the latest: some later response fails or has no next page. */
  predicate DirectoryEnds(pages: seq<Result<GamesPage>>, from: nat)
  {
    exists k :: from <= k < |pages| && (pages[k].Err? || !pages[k].value.next)
  }

  /** `Array.isArray(data?.results) ? data.results : []`. */
  function ResultsOf(p: GamesPage): seq<Game>
  {
    if p.results.Some? then p.results.value else []
  }

  /** The end of a run: the state reached and, when a directory request threw, its message. */
  datatype Run = Run(state: Ingest, failure: Option<string>)

  /**
   * The outer `while` from state `s`: page `s.page` is answered by
   * `pages[s.page - 1]`; a failed directory request ends the run with its error.
   */
  function PagesFrom(s: Ingest, pages: seq<Result<GamesPage>>, target: nat, outcome: nat -> GameOutcome): Run
    requires s.page >= 1
    requires s.analyzed >= target || !s.hasNext || DirectoryEnds(pages, s.page - 1)
    decreases |pages| + 1 - s.page
  {
    if s.analyzed >= target || !s.hasNext then Run(s, None)
    else
      match pages[s.page - 1]
      case Err(m) => Run(s, Some(m))
      case Ok(p) =>
        var next := VisitAll(s, ResultsOf(p), target, outcome).(hasNext := p.next, page := s.page + 1);
        PagesFrom(next, pages, target, outcome)
  }

  /** The state of a run at its start. */
  function Start(games: seq<Game>, analyses: map<nat, Analysis>, errors: map<nat, string>): Ingest
  {
    Ingest(0, 1, true, games, analyses, errors)
  }

  /**
   * How a run changes the state from `s` to `t`: it only appends games, one
   * per analysed game, each 19×19 and analysed with its analysis stored under
   * its id; analyses come only from successful outcomes and errors only from
   * failed analyses.
   */
  ghost predicate Grows(s: Ingest, t: Ingest, outcome: nat -> GameOutcome)
  {
    && |s.games| <= |t.games| && t.games[..|s.games|] == s.games
    && s.analyzed <= t.analyzed && t.analyzed - s.analyzed == |t.games| - |s.games|
    && (forall j :: |s.games| <= j < |t.games| ==>
          FullBoard(t.games[j]) && outcome(t.games[j].id).Analysed? &&
          t.games[j].id in t.analyses && t.analyses[t.games[j].id] == outcome(t.games[j].id).analysis)
    && (forall id :: id in s.analyses ==> id in t.analyses)
    && (forall id :: id in t.analyses ==>
          (id in s.analyses && t.analyses[id] == s.analyses[id]) ||
          (outcome(id).Analysed? && t.analyses[id] == outcome(id).analysis))
    && (forall id :: id in s.errors ==> id in t.errors)
    && (forall id :: id in t.errors ==>
          (id in s.errors && t.errors[id] == s.errors[id]) ||
          (outcome(id).AnalysisFailed? && t.errors[id] == ErrorText(outcome(id).message)))
  }

  lemma GrowsRefl(s: Ingest, outcome: nat -> GameOutcome)
    ensures Grows(s, s, outcome)
  {
    assert s.games[..|s.games|] == s.games;
  }

  lemma GrowsTrans(s: Ingest, u: Ingest, t: Ingest, outcome: nat -> GameOutcome)
    requires Grows(s, u, outcome) && Grows(u, t, outcome)
    ensures Grows(s, t, outcome)
  {
    assert t.games[..|s.games|] == u.games[..|s.games|];
    forall j | |s.games| <= j < |u.games|
      ensures t.games[j] == u.games[j]
    {
      assert t.games[..|u.games|][j] == u.games[j];
    }
  }

  /** One game changes the state only as `Grows` allows, and analyses at most one more game. */
  lemma VisitGrows(s: Ingest, game: Game, outcome: nat -> GameOutcome)
    ensures Grows(s, Visit(s, game, outcome), outcome)
    ensures Visit(s, game, outcome).analyzed <= s.analyzed + 1
    ensures Visit(s, game, outcome).page == s.page && Visit(s, game, outcome).hasNext == s.hasNext
  {
    var t := Visit(s, game, outcome);
    if FullBoard(game) && outcome(game.id).Analysed? {
      assert t.games[..|s.games|] == s.games;
      assert t.games[|s.games|] == game;
    } else {
      GrowsRefl(s, outcome);
    }
  }

  /** A page of games grows the state, and reaches the target at most. */
  lemma {:induction false} VisitAllGrows(s: Ingest, results: seq<Game>, target: nat, outcome: nat -> GameOutcome)
    ensures Grows(s, VisitAll(s, results, target, outcome), outcome)
    ensures s.analyzed <= target ==> VisitAll(s, results, target, outcome).analyzed <= target
    ensures VisitAll(s, results, target, outcome).page == s.page
    ensures VisitAll(s, results, target, outcome).hasNext == s.hasNext
    decreases |results|
  {
    if |results| == 0 || s.analyzed >= target {
      GrowsRefl(s, outcome);
    } else {
      var u := Visit(s, results[0], outcome);
      VisitGrows(s, results[0], outcome);
      VisitAllGrows(u, results[1..], target, outcome);
      GrowsTrans(s, u, VisitAll(u, results[1..], target, outcome), outcome);
    }
  }

  /** A whole run grows the state and never analyses more than the target. */
  lemma {:induction false} PagesFromGrows(s: Ingest, pages: seq<Result<GamesPage>>, target: nat, outcome: nat -> GameOutcome)
    requires s.page >= 1
    requires s.analyzed >= target || !s.hasNext || DirectoryEnds(pages, s.page - 1)
    ensures Grows(s, PagesFrom(s, pages, target, outcome).state, outcome)
    ensures s.analyzed <= target ==> PagesFrom(s, pages, target, outcome).state.analyzed <= target
    decreases |pages| + 1 - s.page
  {
    if s.analyzed >= target || !s.hasNext {
      GrowsRefl(s, outcome);
    } else {
      match pages[s.page - 1]
      case Err(m) =>
        GrowsRefl(s, outcome);
      case Ok(p) =>
        VisitAllGrows(s, ResultsOf(p), target, outcome);
        var next := VisitAll(s, ResultsOf(p), target, outcome).(hasNext := p.next, page := s.page + 1);
        PagesFromGrows(next, pages, target, outcome);
        GrowsTrans(s, next, PagesFrom(next, pages, target, outcome).state, outcome);
    }
  }

  /**
   * Pages are requested one after the other from `s.page` on: a run that
   * ends without error has reached the target or a page without a next one,
   * every page before the last one read had a next page, and a run that
   * fails ends at the page whose request threw.
   */
  lemma {:induction false} PagesFromEnds(s: Ingest, pages: seq<Result<GamesPage>>, target: nat, outcome: nat -> GameOutcome)
    requires s.page >= 1
    requires s.analyzed >= target || !s.hasNext || DirectoryEnds(pages, s.page - 1)
    ensures var r := PagesFrom(s, pages, target, outcome);
            && (r.failure.None? ==> r.state.analyzed >= target || !r.state.hasNext)
            && s.page <= r.state.page
            && (r.state.page > s.page ==> r.state.page <= |pages| + 1)
            && (forall k :: s.page - 1 <= k < r.state.page - 2 ==> pages[k].Ok? && pages[k].value.next)
            && (r.failure.Some? ==> r.state.page - 1 < |pages| && pages[r.state.page - 1] == Err(r.failure.value))
    decreases |pages| + 1 - s.page
  {
    if s.analyzed < target && s.hasNext && pages[s.page - 1].Ok? {
      var p := pages[s.page - 1].value;
      VisitAllGrows(s, ResultsOf(p), target, outcome);
      var next := VisitAll(s, ResultsOf(p), target, outcome).(hasNext := p.next, page := s.page + 1);
      PagesFromEnds(next, pages, target, outcome);
    }
  }

  /** A game that is not 19×19, or whose review list fails or is empty, leaves the state as it was. */
  lemma SkippedGames(s: Ingest, game: Game, outcome: nat -> GameOutcome)
    requires !FullBoard(game) || outcome(game.id).ReviewListFailed? || outcome(game.id).NoReviews?
    ensures Visit(s, game, outcome) == s
  {
  }

  /** `state`: the games and analyses gathered so far and the selected game. */
  class AppState {
    var games: seq<Game>
    var analyses: map<nat, Analysis>
    var analysisErrors: map<nat, string>
    var selectedGameId: Option<nat>

    constructor ()
      ensures games == [] && analyses == map[] && analysisErrors == map[] && selectedGameId == None
    {
      games, analyses, analysisErrors, selectedGameId := [], map[], map[], None;
    }

    /** `resetState`. */
    method ResetState()
      modifies this
      ensures games == [] && analyses == map[] && analysisErrors == map[] && selectedGameId == None
    {
      games := [];
      analyses := map[];
      analysisErrors := map[];
      selectedGameId := None;
    }

    /** The loop state with the given counters and this object's collections. */
    function Current(analyzed: nat, page: nat, hasNext: bool): Ingest
      reads this
    {
      Ingest(analyzed, page, hasNext, games, analyses, analysisErrors)
    }

    /** The body of the inner loop for one game that passed the target check. */
    method VisitGame(game: Game, outcome: nat -> GameOutcome, analyzed: nat, page: nat, hasNext: bool) returns (analyzed': nat)
      modifies this
      ensures Current(analyzed', page, hasNext) == Visit(old(Current(analyzed, page, hasNext)), game, outcome)
      ensures selectedGameId == old(selectedGameId)
    {
      analyzed' := analyzed;
      if game.width != 19 || game.height != 19 {
        return;
      }
      match outcome(game.id)
      case ReviewListFailed =>
      case NoReviews =>
      case Analysed(a) =>
        games := games + [game];
        analyses := analyses[game.id := a];
        analyzed' := analyzed + 1;
      case AnalysisFailed(m) =>
        analysisErrors := analysisErrors[game.id := ErrorText(m)];
    }

    /** The inner `for` over one page's games. */
    method VisitPage(results: seq<Game>, targetCount: nat, outcome: nat -> GameOutcome, analyzed: nat, page: nat, hasNext: bool)
      returns (analyzed': nat)
      modifies this
      ensures Current(analyzed', page, hasNext) == VisitAll(old(Current(analyzed, page, hasNext)), results, targetCount, outcome)
      ensures selectedGameId == old(selectedGameId)
    {
      analyzed' := analyzed;
      for i := 0 to |results|
        invariant selectedGameId == old(selectedGameId)
        invariant VisitAll(old(Current(analyzed, page, hasNext)), results, targetCount, outcome) ==
                  VisitAll(Current(analyzed', page, hasNext), results[i..], targetCount, outcome)
      {
        if analyzed' >= targetCount {
          break;
        }
        assert results[i..][1..] == results[i + 1..];
        analyzed' := VisitGame(results[i], outcome, analyzed', page, hasNext);
      }
    }

    /**
     * `processGamesSequential(playerId, targetCount)`: the directory response
     * for page `k` is `pages[k - 1]` (already filtered by `RankedFilter` and
     * 25 games long at most on the server side) and the review requests for a
     * game end as `outcome(game.id)`. A failed directory request ends the run
     * with its error and keeps what was gathered before it.
     */
    method ProcessGamesSequential(targetCount: nat, pages: seq<Result<GamesPage>>, outcome: nat -> GameOutcome)
      returns (failure: Option<string>)
      requires targetCount == 0 || DirectoryEnds(pages, 0)
      modifies this
      ensures var r := PagesFrom(Start(old(games), old(analyses), old(analysisErrors)), pages, targetCount, outcome);
              games == r.state.games && analyses == r.state.analyses && analysisErrors == r.state.errors &&
              failure == r.failure
      ensures selectedGameId == old(selectedGameId)
    {
      var analyzed: nat := 0;
      var page: nat := 1;
      var hasNext := true;
      ghost var start := Current(analyzed, page, hasNext);
      while analyzed < targetCount && hasNext
        invariant page >= 1
        invariant selectedGameId == old(selectedGameId)
        invariant analyzed >= targetCount || !hasNext || DirectoryEnds(pages, page - 1)
        invariant PagesFrom(start, pages, targetCount, outcome) == PagesFrom(Current(analyzed, page, hasNext), pages, targetCount, outcome)
        decreases if hasNext then |pages| + 2 - page else 0
      {
        var data := pages[page - 1];
        if data.Err? {
          return Some(data.message);
        }
        analyzed := VisitPage(ResultsOf(data.value), targetCount, outcome, analyzed, page, hasNext);
        hasNext := data.value.next;
        page := page + 1;
      }
      failure := None;
    }
  }

  /**
   * A run from the reset state: the games gathered are at most the target,
   * exactly the analysed count, all 19×19 with their analyses stored; errors
   * only from failed analyses.
   */
  lemma FreshRun(pages: seq<Result<GamesPage>>, target: nat, outcome: nat -> GameOutcome)
    requires target == 0 || DirectoryEnds(pages, 0)
    ensures var r := PagesFrom(Start([], map[], map[]), pages, target, outcome);
            && |r.state.games| == r.state.analyzed <= target
            && (forall g :: g in r.state.games ==>
                  FullBoard(g) && outcome(g.id).Analysed? && g.id in r.state.analyses &&
                  r.state.analyses[g.id] == outcome(g.id).analysis)
            && (forall id :: id in r.state.analyses ==> outcome(id).Analysed? && r.state.analyses[id] == outcome(id).analysis)
            && (forall id :: id in r.state.errors ==> outcome(id).AnalysisFailed? && r.state.errors[id] == ErrorText(outcome(id).message))
  {
    var s := Start([], map[], map[]);
    PagesFromGrows(s, pages, target, outcome);
    var t := PagesFrom(s, pages, target, outcome).state;
    forall g | g in t.games
      ensures FullBoard(g) && outcome(g.id).Analysed? && g.id in t.analyses && t.analyses[g.id] == outcome(g.id).analysis
    {
      var j :| 0 <= j < |t.games| && t.games[j] == g;
    }
  }
}
