# OGS-Analyzer in Dafny

OGS-Analyzer is a browser tool. It reads a player's finished 19×19 games from
the Online-Go server, fetches the AI review of each one, and reports how well
the player played: per game and over all games, for
- the whole game and each phase (opening up to move 60, middle game up to 150, end game after that);
- the number of moves, accuracy, average score and win-rate loss, mistakes, and histograms of move quality.

A second page, the live review viewer (`index.js`), connects to the review
socket of one game. It numbers the moves on a board and keeps per-side counts
of how many moves fell into each of its six quality buckets.

This project models the core of both pages:

- `buckets.dfy` (`Buckets`): early-return search of an ordered bucket table, and the facts that the buckets partition the losses and that classification is monotone.
- `phases.dfy` (`Phases`): the phase of a move number and the colour that played it, with JavaScript's truncating `%`.
- `series.dfy` (`Series`): the series-diff rule that turns a score or win-rate series into one loss per move.
- `phase_stats.dfy` (`PhaseStats`): the per-phase statistics.
  - `updatePhaseStats` as a class method that updates the object in place.
  - The field-wise merge of `aggregateReports`.
  - `finalizePhaseStats` with `toFixed` rounding.
  - The invariant that statistics stay consistent: the accurate moves are the "best" bucket, and the total is the sum of the three phases.
- `reports.dfy` (`Reports`): `buildGameReport` and `computeMoveQuality` as loops proved against fold functions. The move counts they produce are proved equal to the set of the player's own moves with a known loss.
- `aggregate.dfy` (`Aggregate`): `aggregateReports` over three in-place targets. `combined` equals black plus white, and swapping neighbouring games changes no target (so, by repeated swaps, neither does any reordering).
- `review_data.dfy`, `js.dfy` (`ReviewData`, `Js`): the review payload, and the few JavaScript value semantics the code relies on (truthiness, `||`, `===`, finite numbers).
- `text.dfy` (`Text`), `utils.dfy` (`Utils`): player-id parsing, rank formatting, side, result and label lookups, and the result column.
- `api.dfy` (`Api`): the retry loop for throttled requests, the games-page query and the session-cache keys, and how the review is selected and the analysis record built. The network is a response oracle, the cache a map, and the socket a function.
- `app.dfy` (`App`): the game filter, the ranked option, and the sequential ingestion loop as the class `AppState`. The loop is proved against a page-by-page function, and a run is proved to collect only 19×19 games, each with its analysis, never more than the target.
- `live.dfy` (`Live`): the viewer state of `index.js` as the class `LiveViewer`, with board numbering and colours, analysis held back until its move is rendered, the score series, and loss extraction from socket payloads. Every method keeps the invariant that the per-side counts equal the moves recorded in each bucket.

Where the code and the system's written description differ, the model follows the code:
- the average win-rate loss is rounded to two decimals (`src/analysis.js:52`);
- `getQualityBucket` classifies the loss it is given, without taking its absolute value first.

## Model

| member | source | states |
|---|---|---|
| Buckets.FindFrom | src/analysis.js:115-120 | The search from index `i` returns an index of the table; no earlier bucket fits; the result fits, or it is the last bucket and nothing fits. |
| Buckets.Classify | src/analysis.js:115-120 | The chosen bucket is the first one that fits, or the last when none does. |
| Buckets.ClassifyFits | src/analysis.js:90-96 | Over a well-formed table (ascending bounds, last one unbounded), the chosen bucket always fits, so the fallback return is never needed. |
| Buckets.ClassifyIsInterval | src/analysis.js:115-120 | Bucket `i` is chosen exactly when the loss is above the previous bound and within its own: the buckets partition the losses. |
| Buckets.AboveAllBoundsIsLast | src/analysis.js:115-119 | A loss above every finite bound lands in the unbounded last bucket. |
| Buckets.ClassifyMonotone | src/analysis.js:115-120 | A larger loss never lands in an earlier bucket. |
| Phases.PhaseOfMatchesTable | src/state.js:1-6 | For a move number of at least 1, `getPhaseId` names exactly the one of the three phase ranges of `PHASES` that contains the move. |
| Phases.PhaseOfMonotone | src/analysis.js:59-63 | Phases follow game order: a later move is never in an earlier phase. |
| Phases.JsRem | src/analysis.js:67 | JavaScript's `%` takes the dividend's sign: the Euclidean remainder for non-negative dividends, its negation for negative ones. |
| Phases.WhiteStartsIsLowerCaseWhite | src/analysis.js:66-68 | The letter-by-letter test is `(initialPlayer \|\| 'black').toLowerCase() === 'white'`. |
| Phases.ColorsAlternate | src/analysis.js:65-72 | From move 0 on, consecutive moves have different colours and moves two apart the same colour. |
| Phases.OddMoves | src/analysis.js:67-71 | Odd moves are white exactly when white starts, black otherwise. |
| Phases.CaseInsensitiveWhite | src/analysis.js:66 | "WHITE" and "White" start as white; a missing player and "black" do not. |
| Phases.NegativeMovesDoNotAlternate | src/analysis.js:67 | Because `-1 % 2` is `-1`, moves -1 and -2 get the same colour. |
| Series.Abs | src/analysis.js:85 | `Math.abs`: non-negative and equal to `x` or `-x`. |
| Series.LossAt | src/analysis.js:79-85 | A known loss of one move is never negative. |
| Series.LossSeries | src/analysis.js:74-88 | One entry per move. |
| Series.ComputeLosses | src/analysis.js:74-88 | The loop over a pre-filled array of nulls produces exactly the loss series. |
| Series.ComputeScoreLosses | src/analysis.js:74-88 | `computeScoreLosses` has one entry per move and is the series-diff rule over the scores. |
| Series.ComputeWinrateLosses | src/analysis.js:152-166 | `computeWinrateLosses` is the same rule over the win rates. |
| Series.ShortSeriesAllUnknown | src/analysis.js:75-76 | A missing series, or one of fewer than two samples, gives no loss for any move. |
| Series.LossesNonNegative | src/analysis.js:85 | Every known loss in the series is non-negative. |
| Series.WithBaseline | src/analysis.js:77-85 | With a sample for the starting position, move `m`'s loss is the absolute change `s[m] - s[m-1]`, or unknown when either sample is not a number. |
| Series.WithoutBaseline | src/analysis.js:77-85 | Without that sample, move 1 and moves past the series have no loss; other moves use `s[m-1] - s[m-2]`. |
| Series.FourSamplesThreeMoves | src/analysis.js:74-88 | Samples 0, 1, 3, 2 over three moves give losses 1, 2, 1. |
| Series.SampleIndex | index.js:408 | `Math.max(0, Math.min(len - 1, target))` is a valid index of a non-empty series; it equals the target when the target is in range, and otherwise clamps to the first or last sample. |
| ReviewData.MovesLength | src/analysis.js:174 | The move count is the number of moves in the game state when that number is non-zero, and the number of score losses otherwise. |
| ReviewData.InitialPlayer | src/analysis.js:175 | The initial player is the game state's `initial_player` when that is set, and "black" when there is no game state or no initial player. |
| Js.Or | index.js:350 | `a \|\| b` is truthy exactly when one of its operands is, and it is `a` when `a` is truthy. |
| PhaseStats.QualityBucketsWellFormed | src/analysis.js:90-96 | `QUALITY_BUCKETS` has ascending finite bounds, an unbounded last entry and distinct ids. |
| PhaseStats.WinrateBucketsWellFormed | src/analysis.js:102-109 | `WINRATE_BUCKETS` has ascending finite bounds, an unbounded last entry and distinct ids. |
| PhaseStats.GetQualityBucket | src/analysis.js:115-120 | The quality bucket is one of the five. |
| PhaseStats.QualityBucketIsFirstFit | src/analysis.js:115-120 | The chosen quality bucket is the first whose bound the loss is within. |
| PhaseStats.GetWinrateBucket | src/analysis.js:122-127 | The win-rate bucket is one of the six. |
| PhaseStats.WinrateBucketIsFirstFit | src/analysis.js:122-127 | The chosen win-rate bucket is the first whose bound the percentage is within. |
| PhaseStats.QualityBucketEnds | src/analysis.js:28-32 | A move is in the "best" bucket exactly when it is accurate (loss at most `ACCURACY_THRESHOLD`), and a blunder exactly when it loses more than 6 points. |
| PhaseStats.Zeros | src/analysis.js:98-100 | One zero counter per bucket. |
| PhaseStats.InitPhaseStats | src/analysis.js:4-14 | Fresh statistics have no moves, no accurate moves, no mistakes, and one counter per bucket of each table. |
| PhaseStats.InitConsistent | src/analysis.js:4-14 | Fresh statistics are consistent. |
| PhaseStats.PhaseAccumulator.constructor | src/analysis.js:4-14 | `initPhaseStats()`: every field zero, one zero per bucket. |
| PhaseStats.RecordScore | src/analysis.js:26-32 | The score half keeps one counter per bucket. |
| PhaseStats.RecordScoreConsistent | src/analysis.js:26-32 | The score half keeps the statistics consistent and leaves fewer win-rate entries than moves. |
| PhaseStats.PhaseAccumulator.UpdateScore | src/analysis.js:26-32 | The in-place update of lines 26-32 changes the object as `RecordScore` says. |
| PhaseStats.RecordWinrate | src/analysis.js:34-41 | The win-rate half keeps one counter per bucket. |
| PhaseStats.RecordWinrateConsistent | src/analysis.js:34-41 | The win-rate half, taken once per move, keeps the statistics consistent. |
| PhaseStats.PhaseAccumulator.UpdateWinrate | src/analysis.js:34-41 | The in-place update of lines 34-41 changes the object as `RecordWinrate` says. |
| PhaseStats.MistakeBuckets | src/analysis.js:36-40 | A 10% mistake is above the "3-6" bucket, a 20% mistake above "6-12", and a 40% mistake in "24+". |
| PhaseStats.Recorded | src/analysis.js:25-42 | `updatePhaseStats` adds one move and its loss. A win-rate loss that is not a number leaves the win-rate total, the mistakes and the win-rate buckets unchanged. |
| PhaseStats.RecordedConsistent | src/analysis.js:25-42 | `updatePhaseStats` keeps the statistics consistent. |
| PhaseStats.RecordedIsMerge | src/analysis.js:25-42 | Recording a move equals merging in the statistics of that move alone. |
| PhaseStats.PhaseAccumulator.Update | src/analysis.js:25-42 | The in-place `updatePhaseStats` changes the object to `Recorded` of its old value and keeps it valid. |
| PhaseStats.AddSeq | src/analysis.js:250-255 | The bucket-wise addition keeps the accumulator's buckets. |
| PhaseStats.Merge | src/analysis.js:241-255 | The merge adds moves and accurate moves and keeps the bucket counts. |
| PhaseStats.MergeConsistent | src/analysis.js:240-256 | Merging consistent statistics gives consistent statistics. |
| PhaseStats.MergeInit | src/analysis.js:240-256 | Fresh statistics are a unit of the merge. |
| PhaseStats.MergeCommutes | src/analysis.js:240-256 | The merge is commutative. |
| PhaseStats.MergeAssociates | src/analysis.js:240-256 | The merge is associative. |
| PhaseStats.PhaseAccumulator.Add | src/analysis.js:240-256 | Adding one phase in place changes the accumulator to the merge of its old value and that phase. |
| PhaseStats.RoundHalfAway | src/analysis.js:50-52 | The rounded integer is within one half of the value, and not negative for a non-negative value. |
| PhaseStats.RoundHalfAwaySymmetric | src/analysis.js:50-52 | Rounding commutes with negation. |
| PhaseStats.RoundHalfAwayWhole | src/analysis.js:50-52 | Whole numbers are unchanged. |
| PhaseStats.RoundTo | src/analysis.js:50-52 | `Number(x.toFixed(d))` is within half a unit of the last kept decimal of `x`, and non-negative for a non-negative `x`. |
| PhaseStats.RoundToOne | src/analysis.js:50 | Rounding to one decimal moves a value by at most 0.05. |
| PhaseStats.RoundToTwo | src/analysis.js:51-52 | Rounding to two decimals moves a value by at most 0.005. |
| PhaseStats.RoundPercent | src/analysis.js:50 | A percentage stays within [0, 100] after rounding to one decimal. |
| PhaseStats.FinalizePhaseStats | src/analysis.js:44-57 | `finalizePhaseStats` keeps the moves, mistakes and buckets. For a phase with moves, accuracy is within 0.05 of 100·accurate/moves, the average score loss within 0.005 of scoreLossTotal/moves, and the average win-rate loss within 0.005 of 100·winrateLossTotal/moves. A phase with no moves has accuracy and averages 0. |
| PhaseStats.AccuracyIsPercent | src/analysis.js:45-50 | The accuracy of consistent statistics is between 0 and 100. |
| PhaseStats.AllAccurate | src/analysis.js:45-50 | When every move is accurate, the accuracy is exactly 100. |
| PhaseStats.RecordMove | src/analysis.js:186-187 | The two calls record the move in the total and in its own phase, and leave the other phases unchanged. |
| PhaseStats.RecordMoveConsistent | src/analysis.js:186-187 | Recording a move keeps every phase consistent, and the total the sum of the three phases. |
| PhaseStats.MergeRawInit | src/analysis.js:240-256 | Fresh player statistics are a unit of the per-phase merge. |
| PhaseStats.MergeRawCommutes | src/analysis.js:240-256 | The per-phase merge is commutative. |
| PhaseStats.MergeRawAssociates | src/analysis.js:240-256 | The per-phase merge is associative. |
| PhaseStats.MergeRawConsistent | src/analysis.js:240-256 | Merging consistent player statistics keeps every phase consistent, and the total the sum of the phases. |
| PhaseStats.InitRawConsistent | src/analysis.js:16-23 | Fresh player statistics are consistent. |
| PhaseStats.PlayerStats.constructor | src/analysis.js:16-23 | `initPlayerStats()`: four fresh phase accumulators. |
| PhaseStats.PlayerStats.Accumulator | src/analysis.js:187 | `phases[phaseId]` is the opening, middle or end accumulator, never the total. |
| PhaseStats.PlayerStats.Record | src/analysis.js:186-187 | Both in-place updates of one move change the player statistics as `RecordMove` says. |
| Reports.FinalizeRaw | src/analysis.js:190-195 | Each finished phase keeps its move count. |
| Reports.WinrateLossesOf | src/analysis.js:177 | One win-rate loss per move. |
| Reports.PhasesUpTo | src/analysis.js:179-188 | Every prefix of the fold keeps one counter per bucket. |
| Reports.GameReportOf | src/analysis.js:168-206 | There is no report exactly when there is no analysis or the player is in neither seat. A report carries the game's id, side, result, label and ranked flag, and its phases are the finished raw phases. |
| Reports.BuildGameReport | src/analysis.js:168-206 | The loop of `buildGameReport` over in-place player statistics returns `GameReportOf`. |
| Reports.PhasesUpToConsistent | src/analysis.js:179-188 | Every prefix of the fold is consistent. |
| Reports.ReportTotalIsSumOfPhases | src/analysis.js:186-187 | In every report, the total is opening + middle + end, field by field. |
| Reports.OwnMovesCount | src/analysis.js:182-184 | Move `k` adds one own move exactly when its loss is known and the player's side made it (in the phase, when one is given). |
| Reports.TotalStep | src/analysis.js:179-188 | One turn of the loop adds one to the total exactly when the move counts. |
| Reports.PhaseStep | src/analysis.js:179-188 | One turn adds one to a phase exactly when the move counts and lies in that phase. |
| Reports.TotalCountsOwnMoves | src/analysis.js:179-188 | The total's move count is the number of moves with a known loss made by the player's side. |
| Reports.PhaseCountsOwnMoves | src/analysis.js:179-188 | Each phase counts exactly those of its own moves. |
| Reports.EmptyQuality | src/analysis.js:133-137 | Fresh histograms have one counter per bucket for each side and phase. |
| Reports.QualityUpTo | src/analysis.js:139-147 | Every prefix of the quality loop keeps one counter per bucket. |
| Reports.ComputeMoveQuality | src/analysis.js:129-150 | The loop of `computeMoveQuality` returns the histograms after all the moves. |
| Reports.CountMoveKeepsPhaseSum | src/analysis.js:145-146 | Counting one move in `all` and in its phase keeps `all` the sum of the phases. |
| Reports.AllIsSumOfPhases | src/analysis.js:139-147 | The `all` histogram is the bucket-wise sum of the three phase histograms, for each side. |
| Reports.CountMoveSum | src/analysis.js:145 | Counting a move adds one to its own side's total and nothing to the other side's. |
| Reports.QualityStart | src/analysis.js:134-137 | Before the first move, the histograms and the set of own moves are both empty. |
| Reports.QualityStep | src/analysis.js:139-147 | One turn of the quality loop keeps a side's histogram total equal to its own moves. |
| Reports.QualityCountsOwnMoves | src/analysis.js:139-147 | A side's `all` histogram adds up to the number of moves with a known loss made by that side. |
| Reports.ReportAgreesWithQuality | src/analysis.js:179-188 | The report's total move count and the player's quality histogram agree. |
| Aggregate.InitTotals | src/analysis.js:209-219 | `baseAggregate()` starts at zero games, wins and losses. |
| Aggregate.ReportTotals | src/analysis.js:236-238 | One report adds one game, and one win or one loss exactly when its result is `W` or `L`. |
| Aggregate.Combine | src/analysis.js:236-256 | Combining adds the counters. |
| Aggregate.CombineInit | src/analysis.js:209-219 | A fresh target is a unit of combining. |
| Aggregate.CombineCommutes | src/analysis.js:235-257 | Combining is commutative. |
| Aggregate.CombineAssociates | src/analysis.js:235-257 | Combining is associative. |
| Aggregate.ReportFor | src/analysis.js:227-229 | A game has no report exactly when it has no analysis or the player is in neither seat. |
| Aggregate.ReportsFor | src/analysis.js:226-229 | One report slot per game, in game order. |
| Aggregate.ReportsForShaped | src/analysis.js:226-229 | Every report has one counter per bucket. |
| Aggregate.Fold | src/analysis.js:226-258 | No target counts more games than there are, nor more wins and losses than games. |
| Aggregate.Present | src/analysis.js:229-230 | The `reports` list is no longer than the games. |
| Aggregate.CombinedCountsReports | src/analysis.js:229-236 | `combined.games` is the length of the `reports` list. |
| Aggregate.CombinedIsBlackPlusWhite | src/analysis.js:232-257 | `combined` is black + white, for the counters and for every phase statistic. |
| Aggregate.FoldConcat | src/analysis.js:226-258 | Folding a concatenation equals combining the folds of its parts. |
| Aggregate.TakeSwap | src/analysis.js:235-257 | Two reports taken in either order give the same target. |
| Aggregate.SwapAt | src/analysis.js:226-258 | Swapping two neighbouring reports changes no target. |
| Aggregate.ReportsForSwapped | src/analysis.js:226-229 | Swapping two games swaps their reports. |
| Aggregate.SwapGames | src/analysis.js:226-258 | Swapping two neighbouring games changes none of the three targets (so, by repeated swaps, neither does any reordering). |
| Aggregate.FinalizeTotals | src/analysis.js:260-270 | `finalizeAggregate` keeps the game, win and loss counters and finalizes every phase with `finalizePhaseStats`, so each phase keeps its move count. |
| Aggregate.AggregateOfReports | src/analysis.js:272-277 | `combined.games` is the number of reports and the sum of the black and white game counts; wins and losses add up the same way; wins and losses never exceed games. |
| Aggregate.SideTotals.constructor | src/analysis.js:209-219 | A fresh target is `baseAggregate()`. |
| Aggregate.SideTotals.Add | src/analysis.js:235-257 | The in-place body for one target combines it with the report's contribution. |
| Aggregate.Accumulate | src/analysis.js:228-257 | One game's report goes to `combined` and to the target of its side, and to nothing else. |
| Aggregate.AggregateReports | src/analysis.js:208-278 | The loop over three in-place targets returns `AggregateOf` for the games. |
| Text.NatToString | src/api.js:48 | `String(n)`: at least one decimal digit, with no leading zero. |
| Text.NatToStringRoundTrip | src/api.js:48 | The digits read back as `n`. |
| Text.NatToStringInjective | src/api.js:60 | Different numbers render differently. |
| Text.ToLowerAscii | src/analysis.js:66 | Lower-casing keeps the length, leaves no capital letter, and leaves every other character alone. |
| Text.SkipSpaces | src/utils.js:3 | Skips exactly the leading JavaScript white space. |
| Text.DropTrailingSpaces | src/utils.js:3 | Drops exactly the trailing JavaScript white space. |
| Text.Trim | src/utils.js:3 | `trim()` is empty exactly for an all-space input. Otherwise it starts and ends with a non-space and is a slice of the input with only spaces around it. |
| Text.IncludesFrom | src/utils.js:69-70 | `includes(t, i)` holds exactly when `t` occurs at or after `i`. |
| Text.Includes | src/utils.js:69-70 | `includes(t)` holds exactly when `t` occurs somewhere. |
| Text.LeftmostMatch | src/utils.js:6 | The match of an unanchored alternation is the leftmost, and at that position the first alternative that matches; no match means no alternative matches anywhere. |
| Text.SearchDigitsAfter | src/utils.js:6-7 | The result is the group captured by the leftmost match: no alternative matches further left, and no earlier alternative matches at the same position. There is no result exactly when no alternative matches anywhere. |
| Text.Split | src/api.js:56 | `split(c)` yields at least one piece, none holding `c`. |
| Text.SplitJoin | src/api.js:56 | Splitting a join gives back fields that lack the separator. |
| Text.JoinInjective | src/api.js:56 | Joining such fields is injective. |
| Utils.ParsePlayerId | src/utils.js:1-9 | `parsePlayerId` gives null for a missing or blank input and the trimmed input when it is all digits. Otherwise it gives the digits captured by the leftmost `player/` or `user/view/` match, and null when neither occurs. |
| Utils.ParseNumericId | src/utils.js:1-5 | A numeric id with spaces around it parses to itself. |
| Utils.TrimUnpadded | src/utils.js:3 | An input with no white space at either end is its own trim. |
| Utils.ProfilePathAtTwo | src/utils.js:6-7 | In "x/player/12/user/view/34" the leftmost match is `player/` at position 2, capturing "12". |
| Utils.LeftmostProfilePath | src/utils.js:1-9 | Of two profile paths in one input, the id of the leftmost one is returned. |
| Utils.AtLeastOne | src/utils.js:14 | `Math.max(1, n)` is at least 1 and at least `n`. |
| Utils.JsRound | src/utils.js:14 | `Math.round` gives the integer within half a unit, halves rounded up. |
| Utils.FormatRank | src/utils.js:11-19 | A rank exists exactly for a finite number. Its digits, with no leading zero, denote `max(1, round(v - 29))` followed by `d` from 30 up, and `max(1, round(30 - v))` followed by `k` below. `index.js:191-199` is the same function. |
| Utils.JsRoundWhole | src/utils.js:14 | `Math.round` leaves whole numbers unchanged. |
| Utils.FormatDanRank | src/utils.js:13-15 | Rank 29 + k shows as "kd". |
| Utils.FormatKyuRank | src/utils.js:17-18 | Rank 30 - k shows as "kk". |
| Utils.HalfRanks | src/utils.js:11-19 | Half ranks round up: 29.5 shows as "1k", 28.5 as "2k", 30.5 as "2d". |
| Utils.GetDisplayName | src/utils.js:21-23 | The name is the username when set, else the name, else the display name, else "Unknown"; "Unknown" also when there is no player. |
| Utils.GetPlayerSide | src/utils.js:25-31 | Black when the player holds the black id; white when the player holds only the white id; null when neither. |
| Utils.TopLevelIdWins | src/utils.js:26 | A top-level `game.black` decides over `players.black.id`. |
| Utils.GetResultForPlayer | src/utils.js:33-42 | `N/A` when the player is in neither seat or the lost flag is not a boolean; otherwise `L` if the player's side lost, `W` if not. |
| Utils.GetGameLabel | src/utils.js:44-48 | The label starts with the black display name, then " vs ", then ends with the white display name. |
| Utils.UnknownPlayersLabel | src/utils.js:44-48 | A game without player objects is labelled "Unknown vs Unknown". |
| Utils.FirstSeparator | src/utils.js:44-48 | When the black name holds no " vs", the first " vs " of the label is the one right after it. |
| Utils.LabelSplits | src/utils.js:44-48 | Two names that hold no " vs" are recovered from the joined label. |
| Utils.GameLabelDeterminesNames | src/utils.js:44-48 | When the black display names hold no " vs", equal labels mean equal black and equal white display names. |
| Utils.GetOpponent | src/utils.js:57-62 | The other side's player object, or none when the player is in neither seat. |
| Utils.FirstDigit | src/utils.js:67 | The position of the leftmost digit, where every match of the points expression starts. |
| Utils.PointsAsWritten | src/utils.js:67 | The points group as written starts with a digit, and exists exactly when the outcome holds a digit. |
| Utils.PointsAsWrittenDropsDecimals | src/utils.js:67 | As written, a decimal score `a.b` is read as `a`. |
| Utils.Points | src/utils.js:67 | The intended points group starts with a digit, and exists exactly when the outcome holds a digit. |
| Utils.PointsReadsDecimals | src/utils.js:67 | The intended expression reads the whole decimal score `a.b`. |
| Utils.HalfPointExample | src/utils.js:67 | On "b+6.5" the expression as written gives "6" and the intended one gives "6.5". |
| Utils.FormatResultForPlayer | src/utils.js:64-77 | The function as written: resignation first, then time, then the points as the expression at src/utils.js:67 reads them, else "?". The side letter comes from the player's result. |
| Utils.FormatResultIntended | src/utils.js:64-77 | The same order, with the corrected points expression. |
| Api.ThrottledStep | src/api.js:13-16 | A throttled attempt waits 800·(i+1) ms and leaves the rest to the next attempt. |
| Api.FetchJsonWithRetry | src/api.js:8-22 | The retry loop returns the result, the number of requests and the waits of `RetryFrom`. |
| Api.RetryShape | src/api.js:8-22 | At most `attempts` requests; every one but the last is throttled; a wait of 800·(i+1) ms follows every throttled response, the last one included; a run stops early only on a response that is not throttled. |
| Api.RetryResult | src/api.js:8-22 | The call succeeds exactly when the last response is ok, with that body. A failure that is not throttling reports its status; throttling reports "Request was throttled.". |
| Api.AllThrottled | src/api.js:8-22 | When every attempt is throttled, all attempts are made and the throttling error is thrown. |
| Api.PageSizeOf | src/api.js:49 | `options.pageSize \|\| 25`: at least 1, and 25 when the option is missing or zero. |
| Api.GamesCacheKeyInjective | src/api.js:60 | Two games-page requests share a cache key only when they agree on the player, page, ranked option and page size. |
| Api.ReviewCacheKeyInjective | src/api.js:69 | Review lists of different games never share a key. |
| Api.AnalysisCacheKeyInjective | src/api.js:136 | Analyses of different games never share a key. |
| Api.CacheKeyKindsDistinct | src/api.js:60 | Games-page, review and analysis keys never collide. |
| Api.QueryPairs | src/api.js:56 | The query string splits back into its `name=value` pairs. |
| Api.GamesParamNamesDistinct | src/api.js:48-55 | The names `buildGamesUrl` sets are distinct. |
| Api.GamesParamLookups | src/api.js:48-55 | Each name finds its own pair, and `ranked` is absent when only six pairs are set. |
| Api.GamesParamsCarry | src/api.js:46-57 | The query always carries the page, the page size (default 25) and the four fixed filters. It carries `ranked` exactly when the option is a boolean, and sets no name twice. |
| Api.BuildGamesUrl | src/api.js:46-57 | The loop of `set` calls produces the pairs of `GamesParams`, rendered after the player's games path. |
| Api.FetchPlayerGamesPage | src/api.js:59-66 | A cached page is returned without a request. Otherwise the retry loop's result is returned, and cached when it succeeds. |
| Api.FetchAiReviewList | src/api.js:68-76 | A cached list is returned as is. A fetched body becomes its `results` array, itself when it is an array, or else no reviews, and that list is cached. |
| Api.SelectReview | src/api.js:142-148 | An empty list gives the "No AI reviews found" error. Otherwise the last review is used, with id `id \|\| ai_review_id` and its uuid. |
| Api.AnalysisOf | src/api.js:150-158 | The analysis is for the game, keeps the metadata, and has one score loss per move of the metadata's game state, computed from the scores (none when they are not an array). |
| Api.FetchAnalysisForGame | src/api.js:135-161 | A cached analysis is returned as is, with both caches unchanged. Otherwise the given list, or the fetched one, selects the review whose socket result becomes the analysis; only a successful analysis is cached. A fetched review list is cached when it was not cached before and the request succeeded. |
| Api.AnalysisFits | src/api.js:142-158 | A fetched analysis is for the requested game and has one loss per move. An empty list is the no-reviews error, and a non-empty one succeeds exactly when the socket does. |
| App.FilterGames | src/app.js:21-29 | The filtered list holds exactly the games whose kind is shown, each as many times as in the input. |
| App.FilterExtremes | src/app.js:24-28 | Showing both kinds keeps every game in order; showing neither keeps none. |
| App.FilterConcat | src/app.js:21-29 | Filtering keeps the order: the filter of a concatenation is the concatenation of the filters. |
| App.RankedPlusFree | src/app.js:24-28 | The ranked and the free views together hold as many games as the list. |
| App.RankedFilter | src/app.js:72 | The ranked option is `true` for ranked only, `false` for free only, and none otherwise. |
| App.RankedFilterAgrees | src/app.js:72-77 | Whenever the option is sent, the server keeps exactly the games the client-side filter would. |
| App.MetricsIndex | src/app.js:207-208 | The sample index is the move number when the series has a starting sample and the move number minus one otherwise, clamped into the series: 0 below it and the last index above it. |
| App.ErrorText | src/app.js:104 | The error text is the message when it is set, and "Analysis failed" otherwise. |
| App.GrowsRefl | src/app.js:66-112 | A run that does nothing grows the state. |
| App.GrowsTrans | src/app.js:66-112 | Growing composes. |
| App.VisitGrows | src/app.js:81-106 | One game appends at most one game, and only a 19×19 one with an analysis stored under its id; analyses and errors come only from their outcomes. |
| App.VisitAllGrows | src/app.js:81-107 | A page grows the state and stops at the target; the page counter and `hasNext` are unchanged. |
| App.PagesFromGrows | src/app.js:74-111 | A whole run grows the state and never analyses more than the target. |
| App.PagesFromEnds | src/app.js:74-111 | A run without error ends at the target or at a page without a next one. Every page read before the last had a next page. A failed run ends at the page whose request threw. |
| App.SkippedGames | src/app.js:83-93 | A game that is not 19×19, or whose review list fails or is empty, changes nothing. |
| App.AppState.constructor | src/state.js:15-18 | The initial state holds no games, analyses, errors or selection. |
| App.AppState.ResetState | src/app.js:55-60 | `resetState` empties the games, analyses and errors, and clears the selection. |
| App.AppState.VisitGame | src/app.js:82-106 | One turn of the inner loop changes the state as `Visit` says, and leaves the selected game as it was. |
| App.AppState.VisitPage | src/app.js:81-107 | The inner `for` changes the state as `VisitAll` says, and leaves the selected game as it was. |
| App.AppState.ProcessGamesSequential | src/app.js:66-112 | The ingestion loop leaves the games, analyses and errors of `PagesFrom`, keeps the selected game, and returns the directory error that ended it, if any. |
| App.FreshRun | src/app.js:66-112 | From a reset state, the games gathered are exactly as many as were analysed, never more than the target. All are 19×19 with their analyses stored; every analysis and every error comes from its game's own outcome. |
| Live.LiveBucketsWellFormed | index.js:11-18 | The viewer's six-bucket table has ascending bounds, an unbounded last entry and distinct ids. |
| Live.LiveQualityBucket | index.js:133-140 | The viewer's bucket is one of the six. |
| Live.LiveBucketIntervals | index.js:133-140 | The six intervals are ≤0.5, (0.5, 1.5], (1.5, 3], (3, 5], (5, 8] and >8. |
| Live.InitQualityCounts | index.js:37-39 | One zero per bucket, adding up to 0. |
| Live.FirstFinite | index.js:373-380 | The first finite number at or after `i`, with none before it. |
| Live.GetNumber | index.js:373-380 | Null exactly when no argument is a finite number; otherwise the first argument that is one. |
| Live.FindPlayed | index.js:352-355 | `find` returns the first branch that names the played move or says it was played, and none when no branch does. |
| Live.ExtractScoreLoss | index.js:339-371 | A loss is never negative; a missing payload has none. |
| Live.StatedLossWins | index.js:341-347 | The first finite one of `score_loss`, `scoreLoss`, `loss` and `point_loss` is reported as its magnitude, whatever the branches say. |
| Live.ComparedLoss | index.js:349-370 | Without a stated loss, the result is the distance between the best line's score and the played move's score, and there is none exactly when either score is missing. |
| Live.NoBranchesNoLoss | index.js:349-370 | Without a stated loss and without a branch array there is no loss. |
| Live.BestLinePlayedIsFree | index.js:349-369 | When the best line is the played move and the payload has no score of its own, the loss is 0. |
| Live.ParseGameId | index.js:226-234 | An unparsable URL gives null. Otherwise the result is the digits after the first `game/` in the path that is followed by a digit, and null when there is none. |
| Live.GameIdAtTwelve | index.js:229 | In "/game/view/game/77" the first `game/` followed by a digit is at 11, capturing "77". |
| Live.FirstGameIdPath | index.js:226-234 | A `game/` not followed by a digit is passed over: "/game/view/game/77" gives "77". |
| Live.BoardCoord | index.js:272-273 | A board coordinate is 0 exactly for a missing or negative one, otherwise one more than it. |
| Live.FirstColor | index.js:266 | The first colour is 1 or -1. |
| Live.NodesUpToAt | index.js:270-279 | Moves 1..n are numbered, each with the entry of its 0-based index, and no other number is. |
| Live.RenderedSides | index.js:266-279 | The stone colour the viewer gives move `n` is the side `getMoveColor` of src/analysis.js assigns it. |
| Live.OddMoveEvenIndex | index.js:277 | Move `n` is odd exactly when its index `n - 1` is even. |
| Live.RenderedColorsAlternate | index.js:266-279 | Consecutive moves have opposite colours, and move 1 is white exactly when white starts. |
| Live.ClassifiedAllAt | index.js:306-332 | Applying a set of losses records a move exactly when it was recorded before, or has a loss and is on the board. An on-board move takes its loss's bucket and side; any other keeps its entry. |
| Live.ClassifiedAllNone | index.js:298-299 | No losses, no change. |
| Live.ClassifiedAllStep | index.js:300-301 | One more loss, for a new move, is one more `applyMoveAnalysis`. |
| Live.PendingStart | index.js:300 | Before the waiting list is worked through, nothing has changed. |
| Live.PendingStep | index.js:300-301 | Taking a move off the waiting list is one more `applyMoveAnalysis`. Putting its loss back leaves the list as it was. |
| Live.SeriesLossesStep | index.js:385-398 | Move `k` adds its loss, if it has one, to those of the moves before it. |
| Live.UnplacedStep | index.js:307-310 | A loss for a move that is not numbered joins the waiting list; one for a numbered move does not. |
| Live.SeriesClassifiedAll | index.js:385-398 | Applying the series move by move records what applying its losses all at once does. |
| Live.SeriesPendingUnplaced | index.js:385-398 | Applying the series move by move leaves waiting exactly the losses of moves that are not numbered. |
| Live.SeriesAppliedInOrder | index.js:385-398 | Over the whole game, the move-by-move and the all-at-once application agree. |
| Live.SeriesLossesAgree | index.js:384-396 | The viewer and `computeScoreLosses` of src/analysis.js read the same loss off a score series for every move. |
| Live.CountsFromAt | index.js:326-332 | Each bucket's count from bucket `lo` on is the number of moves recorded in it. |
| Live.CountsForAt | index.js:326-332 | Bucket `b` of a side's counts is the number of that side's moves recorded in it. |
| Live.CountsAreCountsFor | index.js:326-332 | Counts that agree with the records are unique. |
| Live.Recount | index.js:321-332 | The count update keeps one counter per bucket. |
| Live.TallyAfterSet | index.js:331 | Recording a move takes it from the tally of its old entry and adds it to the tally of the new one. |
| Live.RecordedIsCounted | index.js:326-329 | A recorded move is counted, so the floor at 0 in `Math.max(0, ...)` never takes effect. |
| Live.RecountSide | index.js:321-332 | On the move's side, the decrement-then-increment update gives exactly the counts of the new records. |
| Live.OtherSideUnchanged | index.js:320-332 | The other side's counts still agree. |
| Live.RecountAgrees | index.js:321-332 | The count update of `applyMoveAnalysis` keeps both sides' counts in agreement with the recorded moves. |
| Live.SumCountsFrom | index.js:326-332 | The counts from bucket `lo` on add up to the moves recorded in those buckets. |
| Live.CountsSumToEntries | index.js:326-332 | A side's counts add up to the number of its moves with a recorded quality. |
| Live.InitCountsAgree | index.js:31-34 | With nothing recorded, zero counts agree. |
| Live.LiveViewer.constructor | index.js:20-35 | The initial viewer state is empty, with zero counts, and valid. |
| Live.LiveViewer.ResetQualityCounts | index.js:41-49 | `resetQualityCounts` zeroes the counts, clears the records and the series, and keeps the invariant. |
| Live.LiveViewer.ApplyMoveAnalysis | index.js:306-337 | A loss for a move that is not numbered waits; a pass is ignored; otherwise the move is recorded under its bucket and side. The counts keep agreeing with the records. |
| Live.LiveViewer.ApplyPendingAnalysis | index.js:298-304 | Every waiting loss is applied to the numbered moves, losses for other moves are dropped, and the waiting list is cleared. |
| Live.LiveViewer.ApplyEach | index.js:300-302 | Applying every waiting loss, in any order, classifies the board as the combined map says and leaves the waiting list as it was. |
| Live.LiveViewer.RenderGame | index.js:259-296 | The moves are numbered 1..n with their coordinates and alternating colours, then the waiting losses are applied. |
| Live.LiveViewer.ApplyScoreSeries | index.js:382-400 | With an array of at least two samples, every loss of the series is applied (losses for moves not numbered wait) and the series takes over. Otherwise nothing changes. |
| Live.LiveViewer.ApplySeriesLosses | index.js:385-398 | The loop over moves 1..n applies exactly the series' losses. |
| Live.LiveViewer.ApplySeriesMove | index.js:386-397 | One turn applies the move's loss when both samples are numbers, and nothing otherwise. |
| Live.LiveViewer.OnMoveMessage | index.js:484-491 | Once the series is in use, a move message changes nothing; otherwise an extracted loss is applied to its move. |
| Live.LiveViewer.OnMetadata | index.js:454-467 | The metadata handler renders the game afresh, keeps the series, switches to the score series exactly when there are two or more scores, and records exactly the waiting losses plus the series' losses. |
| Live.LiveViewer.LoadSeries | index.js:460-466 | Takes the score series (and applies it) and the win-rate series when they are arrays. |
| Live.LiveViewer.CurrentMetrics | index.js:407-410 | Both samples are read at the move number clamped into the score series, which is index 0 for an empty one. A sample past the end of its series is none. |
| Live.SeriesIsFinal | index.js:476-491 | Once the score series has been applied, a later per-move message leaves the records as the series made them. |

## Left out

- The network is not modelled. `fetch` becomes a response oracle (the i-th response of a call). The AI review socket (`connectAiReview`, src/api.js:78-133) becomes a function from the review metadata to its result. The socket handshake of index.js:421-446 is not modelled.
- `fetchAnonJwt` (src/api.js:24-44, index.js:236-241) is left out: its token only reaches the socket, and its eight-second back-off depends on the clock.
- Timers are not modelled. The waits of the retry loop are returned as values. The waits of `processGamesSequential` (src/app.js:89-90, 102, 105) have no effect on state and are not modelled.
- The session cache (storage.js) is a map passed in and returned. JSON serialisation and storage failures are not part of this model.
- Numbers are exact reals and integers. Floating-point rounding, NaN and ±Infinity inside series are not modelled. A series entry is a number or not; JavaScript counts NaN as a number.
- `toFixed` is exact rounding, halves away from zero. It does not reproduce binary floating point.
- `toLowerCase` is ASCII-only, and `trim` uses the JavaScript white-space set listed in `Text.IsJsSpace`. No Unicode case mapping.
- `new URL(...)` parsing is left out: `Live.ParseGameId` takes the parsed path, or none when parsing fails. URL percent-encoding of query values is not modelled. Query pairs are modelled for values that need no encoding.
- `Live.LiveViewer.ApplyPendingAnalysis` applies the waiting losses in an unspecified order, not in the Map's insertion order. `Live.ClassifiedAllStep` and `Live.ClassifiedAllAt` show that the result does not depend on the order.
- Live.LiveViewer.RenderGame: requires that no analysis is recorded. Its only caller clears it first (index.js:458-459).
- Live.LiveViewer.OnMetadata: the loop over the payload's `move-` entries (index.js:469-483) is not part of the method. Each entry is one `Live.LiveViewer.OnMoveMessage` call. The `updateCurrentMetrics` call and the log lines are not modelled.
- Socket payload fields are primitives or objects. A branch entry that is not an object, which makes `find` throw and the handler catch, is not modelled. A `move_number` that is a string rather than a number is not modelled.
- App.AppState.ProcessGamesSequential: requires the directory to end, with some response failing or having no next page, unless the target is 0. Against a server that always offers another page, the source loop never stops.
- App.AppState.ProcessGamesSequential: takes the directory responses per page as given. The request it sends (page size 25, the ranked option) is modelled by `Api.BuildGamesUrl` and `App.RankedFilter`, but not connected to the loop. `renderAll`, run after each analysed game, only displays.
- The rendering and UI code of app.js, render.js, viewer.js and dom.js is display only and not part of this model. This covers `loadPlayerProfile`, `loadGameToViewer`, `attachViewerListener`, `setActivePhase` and `syncGamesPanelHeight`. In index.js it covers the quality chart, board markup, `setPlayerNames`, `fetchAiReview`, `fetchGameInfo` and logging.
- `formatGameDate` (src/utils.js:50-55) is left out: it depends on `Date` parsing.
- Aliasing is not modelled. `finalizePhaseStats` shares the `mistakes` and bucket objects with the raw statistics (src/analysis.js:53-55). A finished report is a value here, which is equivalent because nothing changes those objects afterwards.

## Findings

| source | as written | input that shows it | evidently intended | confidence | as-written member | corrected member |
|---|---|---|---|---|---|---|
| src/utils.js:67 | In the literal `/([0-9]+(?:\\.[0-9]+)?)/`, `\\` is a backslash. The optional decimal part therefore needs a backslash, any character and digits, so a decimal score loses its decimals. | The outcome "B+6.5" is lower-cased to "b+6.5". As written, the points group is "6" and the result column shows "W + 6" or "L + 6". | `\.`: a dot and more digits, so the column shows "6.5". | not executed | Utils.PointsAsWritten (shown by Utils.PointsAsWrittenDropsDecimals and Utils.HalfPointExample; used by Utils.FormatResultForPlayer) | Utils.Points (Utils.PointsReadsDecimals; used by Utils.FormatResultIntended) |
