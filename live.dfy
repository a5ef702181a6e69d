/**
 * The live review viewer of index.js: its own six-bucket quality table, the
 * loss extraction of per-move socket payloads, the game-page path, and the
 * viewer state that numbers the moves of a loaded game, holds back analysis
 * for moves not yet on the board, and keeps per-side quality counts in step
 * with the moves it has classified.
 */
module Live {
  import opened Wrappers
  import opened Js
  import opened Text
  import opened Utils
  import opened Buckets
  import opened ReviewData
  import opened Series
  import opened Phases
  import PhaseStats

  // ---------------------------------------------------------------------------
  // The quality table

  /** `QUALITY_BUCKETS` of index.js. */
  const LiveBuckets: seq<Bucket> := [
    Bucket("best", Finite(0.5)),
    Bucket("good", Finite(1.5)),
    Bucket("ok", Finite(3.0)),
    Bucket("bad", Finite(5.0)),
    Bucket("terrible", Finite(8.0)),
    Bucket("blunder", Unbounded)
  ]

  const LiveBucketCount: nat := 6


  lemma LiveBucketsWellFormed()
    ensures WellFormed(LiveBuckets) && |LiveBuckets| == LiveBucketCount
  {
    var t := LiveBuckets;
    assert |t| > 0 && t[|t| - 1].bound.Unbounded? && forall i :: 0 <= i < |t| - 1 ==> t[i].bound.Finite?;
    assert forall i, j :: 0 <= i < j < |t| - 1 ==> t[i].bound.max < t[j].bound.max;
    assert forall i, j :: 0 <= i < j < |t| ==> t[i].id != t[j].id;
  }

  /** `getQualityBucket` of index.js, as the index of the bucket in `LiveBuckets`. */
  function LiveQualityBucket(scoreLoss: real): (b: nat)
    ensures b < LiveBucketCount
  {
    Classify(LiveBuckets, scoreLoss)
  }

  /** The six intervals of the table: each bucket takes the losses above the previous bound up to its own. */
  lemma LiveBucketIntervals(scoreLoss: real)
    ensures LiveQualityBucket(scoreLoss) == 0 <==> scoreLoss <= 0.5
    ensures LiveQualityBucket(scoreLoss) == 1 <==> 0.5 < scoreLoss <= 1.5
    ensures LiveQualityBucket(scoreLoss) == 2 <==> 1.5 < scoreLoss <= 3.0
    ensures LiveQualityBucket(scoreLoss) == 3 <==> 3.0 < scoreLoss <= 5.0
    ensures LiveQualityBucket(scoreLoss) == 4 <==> 5.0 < scoreLoss <= 8.0
    ensures LiveQualityBucket(scoreLoss) == 5 <==> scoreLoss > 8.0
  {
    LiveBucketsWellFormed();
    ClassifyIsInterval(LiveBuckets, scoreLoss, 0);
    ClassifyIsInterval(LiveBuckets, scoreLoss, 1);
    ClassifyIsInterval(LiveBuckets, scoreLoss, 2);
    ClassifyIsInterval(LiveBuckets, scoreLoss, 3);
    ClassifyIsInterval(LiveBuckets, scoreLoss, 4);
    ClassifyIsInterval(LiveBuckets, scoreLoss, 5);
  }

  /** `initQualityCounts`: one zero per bucket. */
  function InitQualityCounts(): (c: seq<nat>)
    ensures |c| == LiveBucketCount
    ensures forall b :: 0 <= b < |c| ==> c[b] == 0
    ensures PhaseStats.Sum(c) == 0
  {
    [0, 0, 0, 0, 0, 0]
  }

  // ---------------------------------------------------------------------------
  // Per-move payloads

  /** The index of the first finite number of `values` at or after `i`, or `|values|`. */
  function FirstFinite(values: seq<JsValue>, i: nat): (k: nat)
    requires i <= |values|
    ensures i <= k <= |values|
    ensures forall j :: i <= j < k ==> !IsFiniteNumber(values[j])
    ensures k < |values| ==> IsFiniteNumber(values[k])
    decreases |values| - i
  {
    if i == |values| || IsFiniteNumber(values[i]) then i else FirstFinite(values, i + 1)
  }

  /** `getNumber(...values)`: the first argument that is a finite number, else null. */
  function GetNumber(values: seq<JsValue>): (r: Option<real>)
    ensures r.None? <==> forall j :: 0 <= j < |values| ==> !IsFiniteNumber(values[j])
    ensures r.Some? ==> exists k :: 0 <= k < |values| && values[k] == Num(r.value)
                                 && forall j :: 0 <= j < k ==> !IsFiniteNumber(values[j])
  {
    var k := FirstFinite(values, 0);
    if k < |values| then Some(values[k].x) else None
  }

  /**
   * A per-move payload of the review socket: its own members and, when its
   * `branches` member is an array, the branch objects in it.
   */
  datatype MovePayload = MovePayload(fields: JsObject, branches: Option<seq<JsObject>>)

  /** `payload.score_loss, payload.scoreLoss, payload.loss, payload.point_loss`. */
  function DirectFields(p: MovePayload): seq<JsValue>
  {
    [Member(p.fields, "score_loss"), Member(p.fields, "scoreLoss"), Member(p.fields, "loss"), Member(p.fields, "point_loss")]
  }

  /** `o?.score, o?.scoreLead, o?.score_lead`; every member of a missing object is undefined. */
  function ScoreFields(o: Option<JsObject>): seq<JsValue>
  {
    match o
    case None => [JsValue.Undefined, JsValue.Undefined, JsValue.Undefined]
    case Some(b) => [Member(b, "score"), Member(b, "scoreLead"), Member(b, "score_lead")]
  }

  /** `branches[0]`: the engine's best line, missing when `branches` is not an array or is empty. */
  function BestBranch(p: MovePayload): Option<JsObject>
  {
    if p.branches.Some? && |p.branches.value| > 0 then Some(p.branches.value[0]) else None
  }

  /** `move || coordinate || player_move || played`. */
  function PlayedMove(p: MovePayload): JsValue
  {
    Or(Or(Or(Member(p.fields, "move"), Member(p.fields, "coordinate")), Member(p.fields, "player_move")), Member(p.fields, "played"))
  }

  /** The predicate of the `find`: the branch names the played move, or says it was played. */
  predicate IsPlayedBranch(branch: JsObject, playedMove: JsValue)
  {
    || StrictEquals(Member(branch, "move"), playedMove)
    || StrictEquals(Member(branch, "coordinate"), playedMove)
    || StrictEquals(Member(branch, "played"), Bool(true))
  }

  /** `Array.prototype.find` from index `i`: the first branch that is the played one. */
  function FindPlayed(branches: seq<JsObject>, playedMove: JsValue, i: nat): (r: Option<nat>)
    requires i <= |branches|
    ensures r.Some? ==> i <= r.value < |branches| && IsPlayedBranch(branches[r.value], playedMove)
    ensures r.Some? ==> forall j :: i <= j < r.value ==> !IsPlayedBranch(branches[j], playedMove)
    ensures r.None? ==> forall j :: i <= j < |branches| ==> !IsPlayedBranch(branches[j], playedMove)
    decreases |branches| - i
  {
    if i == |branches| then None
    else if IsPlayedBranch(branches[i], playedMove) then Some(i)
    else FindPlayed(branches, playedMove, i + 1)
  }

  /** The branch of the move actually played, if `branches` is an array holding one. */
  function PlayedBranch(p: MovePayload): Option<JsObject>
  {
    if p.branches.None? then None
    else
      match FindPlayed(p.branches.value, PlayedMove(p), 0)
      case Some(k) => Some(p.branches.value[k])
      case None => None
  }

  /** The score after the best move. */
  function BestScore(p: MovePayload): Option<real>
  {
    GetNumber(ScoreFields(BestBranch(p)))
  }

  /** The score after the played move: the payload's own score members first, then the played branch's. */
  function PlayedScore(p: MovePayload): Option<real>
  {
    GetNumber(ScoreFields(Some(p.fields)) + ScoreFields(PlayedBranch(p)))
  }

  /** `extractScoreLoss`; `None` for a missing payload and for the `null` result. */
  function ExtractScoreLoss(payload: Option<MovePayload>): (r: Option<real>)
    ensures r.Some? ==> r.value >= 0.0
    ensures payload.None? ==> r.None?
  {
    match payload
    case None => None
    case Some(p) =>
      var direct := GetNumber(DirectFields(p));
      if direct.Some? then Some(Abs(direct.value))
      else
        var best := BestScore(p);
        var played := PlayedScore(p);
        if best.Some? && played.Some? then Some(Abs(best.value - played.value)) else None
  }

  /**
   * A loss the payload states outright wins over any branch comparison: the
   * first finite one of `score_loss`, `scoreLoss`, `loss`, `point_loss` is
   * reported as its magnitude.
   */
  lemma StatedLossWins(p: MovePayload, k: nat, loss: real)
    requires k < 4 && DirectFields(p)[k] == Num(loss)
    requires forall j :: 0 <= j < k ==> !IsFiniteNumber(DirectFields(p)[j])
    ensures ExtractScoreLoss(Some(p)) == Some(Abs(loss))
  {
    assert FirstFinite(DirectFields(p), 0) == k;
  }

  /**
   * Without a stated loss the result is the distance between the best
   * line's score and the played move's score, and it is missing exactly when
   * either score is.
   */
  lemma ComparedLoss(p: MovePayload)
    requires forall j :: 0 <= j < 4 ==> !IsFiniteNumber(DirectFields(p)[j])
    ensures ExtractScoreLoss(Some(p)).Some? <==> BestScore(p).Some? && PlayedScore(p).Some?
    ensures ExtractScoreLoss(Some(p)).Some? ==>
              ExtractScoreLoss(Some(p)).value == Abs(BestScore(p).value - PlayedScore(p).value)
  {
    assert GetNumber(DirectFields(p)).None?;
  }

  /** A payload without a stated loss and without a branch array yields no loss. */
  lemma NoBranchesNoLoss(p: MovePayload)
    requires forall j :: 0 <= j < 4 ==> !IsFiniteNumber(DirectFields(p)[j])
    requires p.branches.None?
    ensures ExtractScoreLoss(Some(p)).None?
  {
    assert GetNumber(DirectFields(p)).None?;
    assert BestScore(p).None? by {
      assert !IsFiniteNumber(ScoreFields(BestBranch(p))[0]);
    }
  }

  /**
   * Playing the engine's best line costs nothing: when the first branch is
   * the played one and the payload has no score of its own, the loss is 0.
   */
  lemma BestLinePlayedIsFree(p: MovePayload, score: real)
    requires forall j :: 0 <= j < 4 ==> !IsFiniteNumber(DirectFields(p)[j])
    requires forall j :: 0 <= j < 3 ==> !IsFiniteNumber(ScoreFields(Some(p.fields))[j])
    requires p.branches.Some? && |p.branches.value| > 0
    requires Member(p.branches.value[0], "played") == Bool(true)
    requires Member(p.branches.value[0], "score") == Num(score)
    ensures ExtractScoreLoss(Some(p)) == Some(0.0)
  {
    var bs := p.branches.value;
    assert IsPlayedBranch(bs[0], PlayedMove(p));
    assert FindPlayed(bs, PlayedMove(p), 0) == Some(0);
    assert BestScore(p) == Some(score) by {
      assert FirstFinite(ScoreFields(BestBranch(p)), 0) == 0;
    }
    var played := ScoreFields(Some(p.fields)) + ScoreFields(PlayedBranch(p));
    assert played[3] == Num(score);
    assert forall j :: 0 <= j < 3 ==> played[j] == ScoreFields(Some(p.fields))[j];
    assert FirstFinite(played, 0) == 3;
    assert PlayedScore(p) == Some(score);
  }

  // ---------------------------------------------------------------------------
  // The game page

  const GameIdPattern: seq<string> := ["game/"]

  /**
   * `parseGameId`: the digits after the first `game/` of the URL's path that
   * is followed by a digit. `None` for a URL that does not parse.
   */
  function ParseGameId(pathname: Option<string>): (r: Option<string>)
    ensures pathname.None? ==> r.None?
    ensures r.Some? ==> |r.value| >= 1 && AllDigits(r.value)
    ensures pathname.Some? ==>
              (r.None? <==> forall k :: 0 <= k < |pathname.value| ==> !MatchesAt(pathname.value, "game/", k))
    ensures pathname.Some? ==>
              forall k: nat :: k < |pathname.value| && MatchesAt(pathname.value, "game/", k) &&
                               (forall j :: 0 <= j < k ==> !MatchesAt(pathname.value, "game/", j)) ==>
                r == Some(Capture(pathname.value, "game/", k))
  {
    match pathname
    case None => None
    case Some(path) =>
      var r := SearchDigitsAfter(path, GameIdPattern);
      forall k: nat | k < |path| && MatchesAt(path, "game/", k) && (forall j :: 0 <= j < k ==> !MatchesAt(path, "game/", j))
        ensures r == Some(Capture(path, "game/", k))
      {
        assert IsLeftmostMatch(path, GameIdPattern, k, 0);
      }
      assert r.None? <==> forall k :: 0 <= k < |path| ==> !MatchesAt(path, "game/", k) by {
        if r.None? {
          forall k | 0 <= k < |path| ensures !MatchesAt(path, "game/", k) {
            assert !MatchesAt(path, GameIdPattern[0], k);
          }
        }
      }
      r
  }

  /** In "/game/view/game/77" the search finds the second `game/`, the first one followed by a digit. */
  lemma GameIdAtTwelve(path: string)
    requires path == "/game/view/game/77"
    ensures MatchesAt(path, "game/", 11) && (forall j :: 0 <= j < 11 ==> !MatchesAt(path, "game/", j))
    ensures Capture(path, "game/", 11) == "77"
  {
    assert path[11..16] == "game/" by {
      forall i | 0 <= i < 5 ensures path[11..16][i] == "game/"[i] {
      }
    }
    forall j | 0 <= j < 11 ensures !MatchesAt(path, "game/", j) {
      if j == 1 {
        assert path[6] == 'v';
      } else {
        assert path[j] != 'g';
      }
    }
    DigitRunEndAt(path, 16, 18);
    assert path[16..18] == "77";
  }

  /** The id is taken after the first `game/` that is followed by a digit. */
  lemma FirstGameIdPath()
    ensures ParseGameId(Some("/game/view/game/77")) == Some("77")
  {
    GameIdAtTwelve("/game/view/game/77");
  }

  // ---------------------------------------------------------------------------
  // Rendered moves

  /** The parts of a `nodesByMove` entry the viewer reads: board coordinates (0 for a pass) and the colour, -1 black, 1 white. */
  datatype NodeInfo = NodeInfo(x: int, y: int, color: int)

  /** An `analysisByMove` entry: the bucket's index in `LiveBuckets` and the side that played the move. */
  datatype MoveAnalysis = MoveAnalysis(bucket: nat, side: Side)

  /** `(c ?? -1) >= 0 ? c + 1 : 0`: a 1-based board coordinate, 0 for a missing or negative one. */
  function BoardCoord(c: Option<int>): (r: nat)
    ensures r == 0 <==> c.None? || c.value < 0
    ensures r > 0 ==> r == c.value + 1
  {
    if c.Some? && c.value >= 0 then c.value + 1 else 0
  }

  /** The colour of the first move: 1 when white starts, else -1. */
  function FirstColor(initialPlayer: string): (c: int)
    ensures c == 1 || c == -1
  {
    if WhiteStarts(initialPlayer) then 1 else -1
  }

  /** The colour of the move at 0-based `index`: the first colour, negated after every move. */
  function ColorAt(firstColor: int, index: nat): int
  {
    if index % 2 == 0 then firstColor else -firstColor
  }

  /** `info.color === -1 ? 'black' : 'white'`. */
  function SideOfColor(color: int): Side
  {
    if color == -1 then Black else White
  }

  /** The entry `renderGame` stores for move `index + 1`. */
  function NodeAt(moves: seq<Move>, firstColor: int, index: nat): NodeInfo
    requires index < |moves|
  {
    NodeInfo(BoardCoord(moves[index].x), BoardCoord(moves[index].y), ColorAt(firstColor, index))
  }

  /** The `nodesByMove` entries for the first `count` moves, keyed by move number 1..count. */
  function NodesUpTo(moves: seq<Move>, firstColor: int, count: nat): map<int, NodeInfo>
    requires count <= |moves|
  {
    if count == 0 then map[] else NodesUpTo(moves, firstColor, count - 1)[count := NodeAt(moves, firstColor, count - 1)]
  }

  /** Moves 1..count are numbered, each with the entry of its 0-based index, and no others. */
  lemma {:induction false} NodesUpToAt(moves: seq<Move>, firstColor: int, count: nat, n: int)
    requires count <= |moves|
    ensures n in NodesUpTo(moves, firstColor, count) <==> 1 <= n <= count
    ensures 1 <= n <= count ==> NodesUpTo(moves, firstColor, count)[n] == NodeAt(moves, firstColor, n - 1)
    decreases count
  {
    if count > 0 {
      NodesUpToAt(moves, firstColor, count - 1, n);
    }
  }

  /** The `nodesByMove` map `renderGame` builds for a game state. */
  function NodesFor(gameState: GameState): map<int, NodeInfo>
  {
    NodesUpTo(gameState.moves, FirstColor(gameState.initialPlayer), |gameState.moves|)
  }

  /**
   * The viewer and the analyser agree on who played each move: the stone
   * colour the board numbering gives move `n` is the side `getMoveColor`
   * of src/analysis.js assigns it.
   */
  lemma RenderedSides(gameState: GameState, n: int)
    requires 1 <= n <= |gameState.moves|
    ensures n in NodesFor(gameState) && SideOfColor(NodesFor(gameState)[n].color) == GetMoveColor(n, gameState.initialPlayer)
  {
    NodesUpToAt(gameState.moves, FirstColor(gameState.initialPlayer), |gameState.moves|, n);
    OddMoveEvenIndex(n);
  }

  /** Move `n` is odd exactly when its 0-based index is even. */
  lemma OddMoveEvenIndex(n: int)
    requires n >= 1
    ensures JsRem(n, 2) == 1 <==> (n - 1) % 2 == 0
  {
  }

  /** Consecutive moves have opposite colours, and move 1 is white exactly when white starts. */
  lemma RenderedColorsAlternate(gameState: GameState, n: int)
    requires 1 <= n < |gameState.moves|
    ensures n in NodesFor(gameState) && n + 1 in NodesFor(gameState)
    ensures NodesFor(gameState)[n + 1].color == -NodesFor(gameState)[n].color
    ensures 1 in NodesFor(gameState) && (NodesFor(gameState)[1].color == 1 <==> WhiteStarts(gameState.initialPlayer))
  {
    var fc := FirstColor(gameState.initialPlayer);
    NodesUpToAt(gameState.moves, fc, |gameState.moves|, n);
    NodesUpToAt(gameState.moves, fc, |gameState.moves|, n + 1);
    NodesUpToAt(gameState.moves, fc, |gameState.moves|, 1);
  }

  /** The board shows a marker for the move: neither coordinate is a pass. */
  predicate OnBoard(info: NodeInfo)
  {
    info.x > 0 && info.y > 0
  }

  /** The entry `applyMoveAnalysis` records for a move on the board. */
  function Classification(info: NodeInfo, scoreLoss: real): MoveAnalysis
  {
    MoveAnalysis(LiveQualityBucket(scoreLoss), SideOfColor(info.color))
  }

  /** The `analysisByMove` after `applyMoveAnalysis(moveNumber, scoreLoss)`. */
  function Classified(am: map<int, MoveAnalysis>, nodes: map<int, NodeInfo>, moveNumber: int, scoreLoss: real): map<int, MoveAnalysis>
  {
    if moveNumber in nodes && OnBoard(nodes[moveNumber])
    then am[moveNumber := Classification(nodes[moveNumber], scoreLoss)]
    else am
  }

  /** The `analysisByMove` after applying every loss of `losses`, one move each, in any order. */
  function ClassifiedAll(am: map<int, MoveAnalysis>, nodes: map<int, NodeInfo>, losses: map<int, real>): map<int, MoveAnalysis>
  {
    map m | m in am.Keys + losses.Keys && (m in am || (m in nodes && OnBoard(nodes[m]))) ::
      if m in losses && m in nodes && OnBoard(nodes[m]) then Classification(nodes[m], losses[m]) else am[m]
  }

  /**
   * A move is recorded afterwards when it was before, or when it has a loss
   * and is on the board; a move with a loss on the board takes that loss's
   * classification, any other keeps its entry.
   */
  lemma ClassifiedAllAt(am: map<int, MoveAnalysis>, nodes: map<int, NodeInfo>, losses: map<int, real>, m: int)
    ensures m in ClassifiedAll(am, nodes, losses) <==> m in am || (m in losses && m in nodes && OnBoard(nodes[m]))
    ensures m in losses && m in nodes && OnBoard(nodes[m]) ==>
              ClassifiedAll(am, nodes, losses)[m] == Classification(nodes[m], losses[m])
    ensures m in am && !(m in losses && m in nodes && OnBoard(nodes[m])) ==> ClassifiedAll(am, nodes, losses)[m] == am[m]
  {
  }

  /** No losses, no change. */
  lemma ClassifiedAllNone(am: map<int, MoveAnalysis>, nodes: map<int, NodeInfo>)
    ensures ClassifiedAll(am, nodes, map[]) == am
  {
  }

  /** One more loss, for a move not yet among `losses`, is one more `applyMoveAnalysis`. */
  lemma ClassifiedAllStep(am: map<int, MoveAnalysis>, nodes: map<int, NodeInfo>, losses: map<int, real>, m: int, loss: real)
    requires m !in losses
    ensures ClassifiedAll(am, nodes, losses[m := loss]) == Classified(ClassifiedAll(am, nodes, losses), nodes, m, loss)
  {
  }

  /** Before `applyPendingAnalysis` takes any loss off the waiting list, nothing has changed. */
  lemma PendingStart(am: map<int, MoveAnalysis>, nodes: map<int, NodeInfo>, pending: map<int, real>)
    ensures ClassifiedAll(am, nodes, pending - pending.Keys) == am
  {
    assert pending - pending.Keys == map[];
    ClassifiedAllNone(am, nodes);
  }

  /**
   * Taking move `m` off the waiting list is one more `applyMoveAnalysis` with
   * its loss; should the move still have no node, putting its loss back
   * leaves the waiting list as it was.
   */
  lemma PendingStep(am: map<int, MoveAnalysis>, nodes: map<int, NodeInfo>, pending: map<int, real>, todo: set<int>, m: int)
    requires m in todo && m in pending
    ensures ClassifiedAll(am, nodes, pending - (todo - {m})) == Classified(ClassifiedAll(am, nodes, pending - todo), nodes, m, pending[m])
    ensures pending[m := pending[m]] == pending
  {
    assert pending - (todo - {m}) == (pending - todo)[m := pending[m]];
    ClassifiedAllStep(am, nodes, pending - todo, m, pending[m]);
  }

  /** Once the waiting list has been worked through, every waiting loss has been applied. */
  lemma PendingEnd(am: map<int, MoveAnalysis>, nodes: map<int, NodeInfo>, pending: map<int, real>)
    ensures ClassifiedAll(am, nodes, pending - {}) == ClassifiedAll(am, nodes, pending)
  {
    assert pending - {} == pending;
  }

  /** A waiting list of size zero is empty. */
  lemma NoneWaiting(pending: map<int, real>)
    requires |pending| == 0
    ensures pending == map[]
  {
  }

  /** The losses that find no move on the board: they wait in `pendingAnalysis`. */
  function Unplaced(nodes: map<int, NodeInfo>, losses: map<int, real>): map<int, real>
  {
    map m | m in losses && m !in nodes :: losses[m]
  }

  /** The losses `applyScoreSeries` delivers for the moves before `limit`: one per move whose two samples are numbers. */
  function SeriesLossesBelow(scores: seq<Sample>, movesLength: nat, limit: int): map<int, real>
  {
    map m | 1 <= m < limit && m <= movesLength && LossAt(scores, movesLength, m).Some? :: LossAt(scores, movesLength, m).value
  }

  /** Move `k` adds its loss, if it has one, to those of the moves before it. */
  lemma SeriesLossesStep(scores: seq<Sample>, movesLength: nat, k: nat)
    requires 1 <= k <= movesLength
    ensures LossAt(scores, movesLength, k).None? ==>
              SeriesLossesBelow(scores, movesLength, k + 1) == SeriesLossesBelow(scores, movesLength, k)
    ensures LossAt(scores, movesLength, k).Some? ==>
              SeriesLossesBelow(scores, movesLength, k + 1)
              == SeriesLossesBelow(scores, movesLength, k)[k := LossAt(scores, movesLength, k).value]
  {
  }

  /** A loss for a move not on the board joins those waiting; one for a move on the board does not. */
  lemma UnplacedStep(pending: map<int, real>, nodes: map<int, NodeInfo>, losses: map<int, real>, m: int, loss: real)
    ensures pending + Unplaced(nodes, losses[m := loss]) ==
            if m in nodes then pending + Unplaced(nodes, losses) else (pending + Unplaced(nodes, losses))[m := loss]
  {
  }

  /** The recorded analysis once `applyScoreSeries` has passed moves 1 .. limit - 1, in order. */
  function SeriesClassified(am: map<int, MoveAnalysis>, nodes: map<int, NodeInfo>,
                            scores: seq<Sample>, movesLength: nat, limit: int): map<int, MoveAnalysis>
    decreases limit
  {
    if limit <= 1 then am
    else
      var before := SeriesClassified(am, nodes, scores, movesLength, limit - 1);
      var loss := LossAt(scores, movesLength, limit - 1);
      if loss.Some? then Classified(before, nodes, limit - 1, loss.value) else before
  }

  /** The waiting list once `applyScoreSeries` has passed moves 1 .. limit - 1, in order. */
  function SeriesPending(pending: map<int, real>, nodes: map<int, NodeInfo>,
                         scores: seq<Sample>, movesLength: nat, limit: int): map<int, real>
    decreases limit
  {
    if limit <= 1 then pending
    else
      var before := SeriesPending(pending, nodes, scores, movesLength, limit - 1);
      var loss := LossAt(scores, movesLength, limit - 1);
      if loss.Some? && limit - 1 !in nodes then before[limit - 1 := loss.value] else before
  }

  /** Applying the series move by move records what applying its losses all at once does. */
  lemma {:induction false} SeriesClassifiedAll(am: map<int, MoveAnalysis>, nodes: map<int, NodeInfo>,
                                               scores: seq<Sample>, movesLength: nat, limit: int)
    requires 1 <= limit <= movesLength + 1
    ensures SeriesClassified(am, nodes, scores, movesLength, limit)
            == ClassifiedAll(am, nodes, SeriesLossesBelow(scores, movesLength, limit))
    decreases limit
  {
    if limit == 1 {
      assert SeriesLossesBelow(scores, movesLength, limit) == map[];
      ClassifiedAllNone(am, nodes);
    } else {
      var k := limit - 1;
      SeriesClassifiedAll(am, nodes, scores, movesLength, k);
      SeriesLossesStep(scores, movesLength, k);
      var loss := LossAt(scores, movesLength, k);
      if loss.Some? {
        ClassifiedAllStep(am, nodes, SeriesLossesBelow(scores, movesLength, k), k, loss.value);
      }
    }
  }

  /** Applying the series move by move leaves waiting exactly the losses of moves not on the board. */
  lemma {:induction false} SeriesPendingUnplaced(pending: map<int, real>, nodes: map<int, NodeInfo>,
                                                 scores: seq<Sample>, movesLength: nat, limit: int)
    requires 1 <= limit <= movesLength + 1
    ensures SeriesPending(pending, nodes, scores, movesLength, limit)
            == pending + Unplaced(nodes, SeriesLossesBelow(scores, movesLength, limit))
    decreases limit
  {
    if limit == 1 {
      assert SeriesLossesBelow(scores, movesLength, limit) == map[];
      NothingUnplaced(pending, nodes);
    } else {
      var k := limit - 1;
      SeriesPendingUnplaced(pending, nodes, scores, movesLength, k);
      SeriesLossesStep(scores, movesLength, k);
      var loss := LossAt(scores, movesLength, k);
      if loss.Some? {
        UnplacedStep(pending, nodes, SeriesLossesBelow(scores, movesLength, k), k, loss.value);
      }
    }
  }

  /** Over the whole game: the series' losses applied move by move, and all at once, agree. */
  lemma SeriesAppliedInOrder(am: map<int, MoveAnalysis>, pending: map<int, real>, nodes: map<int, NodeInfo>,
                             scores: seq<Sample>, movesLength: nat)
    ensures SeriesClassified(am, nodes, scores, movesLength, movesLength + 1)
            == ClassifiedAll(am, nodes, SeriesLosses(scores, movesLength))
    ensures SeriesPending(pending, nodes, scores, movesLength, movesLength + 1)
            == pending + Unplaced(nodes, SeriesLosses(scores, movesLength))
  {
    SeriesClassifiedAll(am, nodes, scores, movesLength, movesLength + 1);
    SeriesPendingUnplaced(pending, nodes, scores, movesLength, movesLength + 1);
  }

  lemma NothingUnplaced(pending: map<int, real>, nodes: map<int, NodeInfo>)
    ensures pending + Unplaced(nodes, map[]) == pending
  {
  }

  lemma NothingWaitingBefore(waiting: map<int, real>)
    ensures map[] + waiting == waiting
  {
  }

  /** The losses `applyScoreSeries` delivers: the move losses of the series rule of src/analysis.js. */
  function SeriesLosses(scores: seq<Sample>, movesLength: nat): map<int, real>
  {
    SeriesLossesBelow(scores, movesLength, movesLength + 1)
  }

  /** The viewer and the analyser read the same losses off a score series. */
  lemma SeriesLossesAgree(scores: seq<Sample>, movesLength: nat, m: nat)
    requires |scores| >= 2 && 1 <= m <= movesLength
    ensures m in SeriesLosses(scores, movesLength) <==> LossSeries(Some(scores), movesLength)[m - 1].Some?
    ensures m in SeriesLosses(scores, movesLength) ==>
              SeriesLosses(scores, movesLength)[m] == LossSeries(Some(scores), movesLength)[m - 1].value
  {
  }

  // ---------------------------------------------------------------------------
  // Quality counts

  /** The moves recorded with exactly this bucket and side. */
  ghost function Recorded(am: map<int, MoveAnalysis>, e: MoveAnalysis): set<int>
  {
    set m | m in am && am[m] == e
  }

  /** How many moves are recorded with exactly this bucket and side. */
  ghost function Tally(am: map<int, MoveAnalysis>, e: MoveAnalysis): nat
  {
    |Recorded(am, e)|
  }

  /** The counts from bucket `lo` on: for each bucket, the moves of `side` recorded in it. */
  ghost function CountsFrom(am: map<int, MoveAnalysis>, side: Side, lo: nat): (c: seq<nat>)
    requires lo <= LiveBucketCount
    ensures |c| == LiveBucketCount - lo
    decreases LiveBucketCount - lo
  {
    if lo == LiveBucketCount then [] else [Tally(am, MoveAnalysis(lo, side))] + CountsFrom(am, side, lo + 1)
  }

  lemma {:induction false} CountsFromAt(am: map<int, MoveAnalysis>, side: Side, lo: nat, b: nat)
    requires lo <= b < LiveBucketCount
    ensures CountsFrom(am, side, lo)[b - lo] == Tally(am, MoveAnalysis(b, side))
    decreases b - lo
  {
    var rest := CountsFrom(am, side, lo + 1);
    assert CountsFrom(am, side, lo) == [Tally(am, MoveAnalysis(lo, side))] + rest;
    if lo < b {
      CountsFromAt(am, side, lo + 1, b);
      assert CountsFrom(am, side, lo)[b - lo] == rest[b - lo - 1];
    }
  }

  /** The counts `side` should show: one per bucket, the moves recorded in it. */
  ghost function CountsFor(am: map<int, MoveAnalysis>, side: Side): (c: seq<nat>)
    ensures |c| == LiveBucketCount
  {
    CountsFrom(am, side, 0)
  }

  /** Bucket `b` of the counts is the number of moves recorded in it. */
  lemma CountsForAt(am: map<int, MoveAnalysis>, side: Side, b: nat)
    requires b < LiveBucketCount
    ensures CountsFor(am, side)[b] == Tally(am, MoveAnalysis(b, side))
  {
    CountsFromAt(am, side, 0, b);
  }

  /** The number of analysed moves of `side`. */
  ghost function SideEntries(am: map<int, MoveAnalysis>, side: Side): nat
  {
    |set m | m in am && am[m].side == side|
  }

  /** Every recorded bucket is an index into the table. */
  ghost predicate Bucketed(am: map<int, MoveAnalysis>)
  {
    forall m :: m in am ==> am[m].bucket < LiveBucketCount
  }

  /** `state.qualityCounts`: one count per bucket for each side. */
  datatype QualityCounts = QualityCounts(black: seq<nat>, white: seq<nat>)
  {
    function Of(side: Side): seq<nat>
    {
      if side == Black then black else white
    }

    function With(side: Side, c: seq<nat>): (r: QualityCounts)
      ensures r.Of(side) == c
      ensures r.Of(if side == Black then White else Black) == Of(if side == Black then White else Black)
    {
      if side == Black then QualityCounts(c, white) else QualityCounts(black, c)
    }
  }

  /** `c` holds, for each bucket, the number of moves of `side` recorded in it. */
  ghost predicate Counts(c: seq<nat>, am: map<int, MoveAnalysis>, side: Side)
  {
    |c| == LiveBucketCount && forall b :: 0 <= b < LiveBucketCount ==> c[b] == Tally(am, MoveAnalysis(b, side))
  }

  /** The counts agree with the recorded moves, for both sides. */
  ghost predicate CountsAgree(qc: QualityCounts, am: map<int, MoveAnalysis>)
  {
    Counts(qc.black, am, Black) && Counts(qc.white, am, White)
  }

  /** Counts that agree are the ones `CountsFor` lists. */
  lemma CountsAreCountsFor(c: seq<nat>, am: map<int, MoveAnalysis>, side: Side)
    requires Counts(c, am, side)
    ensures c == CountsFor(am, side)
  {
    forall b | 0 <= b < LiveBucketCount
      ensures c[b] == CountsFor(am, side)[b]
    {
      CountsForAt(am, side, b);
    }
  }

  /**
   * The count update of `applyMoveAnalysis`: take one from the old bucket,
   * floored at 0, when the move is being reclassified, then add one to the
   * new bucket.
   */
  function Recount(c: seq<nat>, previous: Option<nat>, bucket: nat): (r: seq<nat>)
    requires |c| == LiveBucketCount && bucket < LiveBucketCount
    requires previous.Some? ==> previous.value < LiveBucketCount
    ensures |r| == LiveBucketCount
  {
    var lowered := if previous.Some? then c[previous.value := if c[previous.value] >= 1 then c[previous.value] - 1 else 0] else c;
    lowered[bucket := lowered[bucket] + 1]
  }

  lemma RecordedAfterSet(am: map<int, MoveAnalysis>, m: int, v: MoveAnalysis, e: MoveAnalysis)
    ensures Recorded(am[m := v], e) == (Recorded(am, e) - {m}) + (if v == e then {m} else {})
  {
  }

  /** Recording `v` for move `m` moves it from the tally of its old entry to the tally of `v`. */
  lemma TallyAfterSet(am: map<int, MoveAnalysis>, m: int, v: MoveAnalysis, e: MoveAnalysis)
    ensures Tally(am[m := v], e) + (if m in am && am[m] == e then 1 else 0) == Tally(am, e) + (if v == e then 1 else 0)
  {
    RecordedAfterSet(am, m, v, e);
    SizeWithout(Recorded(am, e), m);
    SizeWithout(Recorded(am[m := v], e), m);
  }

  lemma NonEmptyHasMember(s: set<int>)
    requires s != {}
    ensures exists x :: x in s
  {
    if forall x :: x !in s {
      assert false;
    }
  }

  lemma NoMemberIsEmpty(s: set<int>)
    requires forall x :: x !in s
    ensures s == {}
  {
    if s != {} {
      NonEmptyHasMember(s);
      assert false;
    }
  }

  lemma SizeWithout(s: set<int>, m: int)
    ensures |s| == |s - {m}| + (if m in s then 1 else 0)
  {
    if m in s {
      assert s == (s - {m}) + {m};
    } else {
      assert s - {m} == s;
    }
  }

  /** A recorded move is counted: its own bucket's count is at least one, so the floor at 0 never takes effect. */
  lemma RecordedIsCounted(qc: QualityCounts, am: map<int, MoveAnalysis>, m: int)
    requires CountsAgree(qc, am) && Bucketed(am) && m in am
    ensures qc.Of(am[m].side)[am[m].bucket] >= 1
  {
    var e := am[m];
    SizeWithout(Recorded(am, e), m);
    assert Counts(qc.Of(e.side), am, e.side);
  }

  /** On the side of the move, the JS update of the counts gives the counts of the new record. */
  lemma RecountSide(c: seq<nat>, am: map<int, MoveAnalysis>, m: int, v: MoveAnalysis)
    requires Counts(c, am, v.side) && Bucketed(am) && v.bucket < LiveBucketCount
    requires m in am ==> am[m].side == v.side
    ensures Counts(Recount(c, if m in am then Some(am[m].bucket) else None, v.bucket), am[m := v], v.side)
  {
    var previous := if m in am then Some(am[m].bucket) else None;
    var r := Recount(c, previous, v.bucket);
    forall b | 0 <= b < LiveBucketCount
      ensures r[b] == Tally(am[m := v], MoveAnalysis(b, v.side))
    {
      TallyAfterSet(am, m, v, MoveAnalysis(b, v.side));
      if m in am && b == am[m].bucket {
        SizeWithout(Recorded(am, am[m]), m);
      }
    }
  }

  /** The other side's counts are untouched. */
  lemma OtherSideUnchanged(c: seq<nat>, am: map<int, MoveAnalysis>, m: int, v: MoveAnalysis, side: Side)
    requires Counts(c, am, side) && side != v.side
    requires m in am ==> am[m].side == v.side
    ensures Counts(c, am[m := v], side)
  {
    forall b | 0 <= b < LiveBucketCount
      ensures c[b] == Tally(am[m := v], MoveAnalysis(b, side))
    {
      TallyAfterSet(am, m, v, MoveAnalysis(b, side));
    }
  }

  /** `applyMoveAnalysis`'s count update keeps the counts in agreement with the recorded moves. */
  lemma RecountAgrees(qc: QualityCounts, am: map<int, MoveAnalysis>, m: int, v: MoveAnalysis)
    requires CountsAgree(qc, am) && Bucketed(am) && v.bucket < LiveBucketCount
    requires m in am ==> am[m].side == v.side
    ensures CountsAgree(qc.With(v.side, Recount(qc.Of(v.side), if m in am then Some(am[m].bucket) else None, v.bucket)), am[m := v])
  {
    RecountSide(qc.Of(v.side), am, m, v);
    var other := if v.side == Black then White else Black;
    OtherSideUnchanged(qc.Of(other), am, m, v, other);
  }

  /** The moves of `side` recorded in bucket `lo` or later. */
  ghost function EntriesFrom(am: map<int, MoveAnalysis>, side: Side, lo: nat): set<int>
  {
    set m | m in am && am[m].side == side && am[m].bucket >= lo
  }

  lemma {:induction false} SumCountsFrom(am: map<int, MoveAnalysis>, side: Side, lo: nat)
    requires Bucketed(am) && lo <= LiveBucketCount
    ensures PhaseStats.Sum(CountsFrom(am, side, lo)) == |EntriesFrom(am, side, lo)|
    decreases LiveBucketCount - lo
  {
    if lo == LiveBucketCount {
      assert forall x :: x !in EntriesFrom(am, side, lo) by {
        assert forall x :: x in am ==> am[x].bucket < lo;
      }
      NoMemberIsEmpty(EntriesFrom(am, side, lo));
    } else {
      SumCountsFrom(am, side, lo + 1);
      assert CountsFrom(am, side, lo)[1..] == CountsFrom(am, side, lo + 1);
      var here := Recorded(am, MoveAnalysis(lo, side));
      assert EntriesFrom(am, side, lo) == here + EntriesFrom(am, side, lo + 1);
      assert here * EntriesFrom(am, side, lo + 1) == {};
    }
  }

  /** The counts of a side add up to the number of moves of that side with a recorded quality. */
  lemma CountsSumToEntries(qc: QualityCounts, am: map<int, MoveAnalysis>, side: Side)
    requires CountsAgree(qc, am) && Bucketed(am)
    ensures PhaseStats.Sum(qc.Of(side)) == SideEntries(am, side)
  {
    CountsAreCountsFor(qc.Of(side), am, side);
    SumCountsFrom(am, side, 0);
    assert EntriesFrom(am, side, 0) == set m | m in am && am[m].side == side;
  }

  /** With nothing recorded, the initial counts agree. */
  lemma InitCountsAgree()
    ensures CountsAgree(QualityCounts(InitQualityCounts(), InitQualityCounts()), map[])
  {
    var none: map<int, MoveAnalysis> := map[];
    forall side: Side, b | 0 <= b < LiveBucketCount ensures Tally(none, MoveAnalysis(b, side)) == 0 {
      assert Recorded(none, MoveAnalysis(b, side)) == {};
    }
  }

  // ---------------------------------------------------------------------------
  // The viewer state

  /** The part of `state` in index.js that the analysis display keeps. */
  class LiveViewer {
    var nodesByMove: map<int, NodeInfo>
    var pendingAnalysis: map<int, real>
    var analysisByMove: map<int, MoveAnalysis>
    var usingScoreSeries: bool
    var scoreSeries: seq<Sample>
    var winrateSeries: seq<Sample>
    var qualityCounts: QualityCounts

    /**
     * Every recorded move is on the board, under the side of its stone and a
     * bucket of the table, and the counts agree with the recorded moves.
     */
    ghost predicate Valid()
      reads this`nodesByMove, this`analysisByMove, this`qualityCounts
    {
      && (forall m :: m in analysisByMove ==>
            && m in nodesByMove && OnBoard(nodesByMove[m])
            && analysisByMove[m].side == SideOfColor(nodesByMove[m].color))
      && Bucketed(analysisByMove)
      && CountsAgree(qualityCounts, analysisByMove)
    }

    /** The initial `state`. */
    constructor()
      ensures Valid()
      ensures nodesByMove == map[] && pendingAnalysis == map[] && analysisByMove == map[]
      ensures !usingScoreSeries && scoreSeries == [] && winrateSeries == []
      ensures qualityCounts == QualityCounts(InitQualityCounts(), InitQualityCounts())
    {
      nodesByMove := map[];
      pendingAnalysis := map[];
      analysisByMove := map[];
      usingScoreSeries := false;
      scoreSeries := [];
      winrateSeries := [];
      qualityCounts := QualityCounts(InitQualityCounts(), InitQualityCounts());
      InitCountsAgree();
    }

    /** `resetQualityCounts`: zero counts, nothing recorded, no series. */
    method ResetQualityCounts()
      modifies this`qualityCounts, this`analysisByMove, this`usingScoreSeries, this`scoreSeries, this`winrateSeries
      ensures Valid()
      ensures qualityCounts == QualityCounts(InitQualityCounts(), InitQualityCounts())
      ensures analysisByMove == map[]
      ensures !usingScoreSeries && scoreSeries == [] && winrateSeries == []
    {
      qualityCounts := QualityCounts(InitQualityCounts(), InitQualityCounts());
      analysisByMove := map[];
      usingScoreSeries := false;
      scoreSeries := [];
      winrateSeries := [];
      InitCountsAgree();
    }

    /**
     * `applyMoveAnalysis`: a loss for a move not on the board waits in
     * `pendingAnalysis`; a pass is ignored; otherwise the move is recorded
     * under its bucket and side and the counts follow.
     */
    method ApplyMoveAnalysis(moveNumber: int, scoreLoss: real)
      requires Valid()
      modifies this`pendingAnalysis, this`analysisByMove, this`qualityCounts
      ensures Valid()
      ensures analysisByMove == Classified(old(analysisByMove), nodesByMove, moveNumber, scoreLoss)
      ensures pendingAnalysis ==
                if moveNumber in nodesByMove then old(pendingAnalysis) else old(pendingAnalysis)[moveNumber := scoreLoss]
    {
      if moveNumber !in nodesByMove {
        pendingAnalysis := pendingAnalysis[moveNumber := scoreLoss];
        return;
      }
      var info := nodesByMove[moveNumber];
      if info.x <= 0 || info.y <= 0 {
        return;
      }
      var bucket := LiveQualityBucket(scoreLoss);
      var side := SideOfColor(info.color);
      var entry := MoveAnalysis(bucket, side);
      var previous: Option<nat> := None;
      if moveNumber in analysisByMove {
        var existing := analysisByMove[moveNumber];
        if existing.bucket == bucket {
          assert analysisByMove[moveNumber := entry] == analysisByMove;
          return;
        }
        previous := Some(existing.bucket);
      }
      RecountAgrees(qualityCounts, analysisByMove, moveNumber, entry);
      qualityCounts := qualityCounts.With(side, Recount(qualityCounts.Of(side), previous, bucket));
      analysisByMove := analysisByMove[moveNumber := entry];
    }

    /**
     * `applyPendingAnalysis`: every waiting loss is applied to the board just
     * built and the waiting list is cleared; losses for moves the board does
     * not have are dropped.
     */
    method ApplyPendingAnalysis()
      requires Valid()
      modifies this`pendingAnalysis, this`analysisByMove, this`qualityCounts
      ensures Valid()
      ensures pendingAnalysis == map[]
      ensures analysisByMove == ClassifiedAll(old(analysisByMove), nodesByMove, old(pendingAnalysis))
    {
      if |pendingAnalysis| == 0 {
        NoneWaiting(pendingAnalysis);
        ClassifiedAllNone(analysisByMove, nodesByMove);
        return;
      }
      ApplyEach();
      pendingAnalysis := map[];
    }

    /**
     * The loop of `applyPendingAnalysis` over the waiting losses, in any
     * order: a loss for a move without a node is put back where it was.
     */
    method ApplyEach()
      requires Valid()
      modifies this`pendingAnalysis, this`analysisByMove, this`qualityCounts
      ensures Valid()
      ensures pendingAnalysis == old(pendingAnalysis)
      ensures analysisByMove == ClassifiedAll(old(analysisByMove), nodesByMove, old(pendingAnalysis))
    {
      ghost var am0 := analysisByMove;
      var pending := pendingAnalysis;
      var todo := pending.Keys;
      PendingStart(am0, nodesByMove, pending);
      while todo != {}
        invariant Valid()
        invariant todo <= pending.Keys
        invariant analysisByMove == ClassifiedAll(am0, nodesByMove, pending - todo)
        invariant pendingAnalysis == pending
        decreases |todo|
      {
        NonEmptyHasMember(todo);
        var m :| m in todo;
        PendingStep(am0, nodesByMove, pending, todo, m);
        ApplyMoveAnalysis(m, pending[m]);
        todo := todo - {m};
      }
      PendingEnd(am0, nodesByMove, pending);
    }

    /**
     * `renderGame`: number the moves 1..n with board coordinates and
     * alternating colours, then apply the losses that were waiting. Its only
     * caller clears the recorded analysis first.
     */
    method RenderGame(gameState: GameState)
      requires Valid() && analysisByMove == map[]
      modifies this`nodesByMove, this`pendingAnalysis, this`analysisByMove, this`qualityCounts
      ensures Valid()
      ensures nodesByMove == NodesFor(gameState)
      ensures pendingAnalysis == map[]
      ensures analysisByMove == ClassifiedAll(map[], nodesByMove, old(pendingAnalysis))
    {
      var moves := gameState.moves;
      var firstColor := FirstColor(gameState.initialPlayer);
      var color := firstColor;
      nodesByMove := map[];
      for index := 0 to |moves|
        invariant nodesByMove == NodesUpTo(moves, firstColor, index)
        invariant color == ColorAt(firstColor, index)
        invariant analysisByMove == map[] && qualityCounts == old(qualityCounts)
        invariant pendingAnalysis == old(pendingAnalysis)
      {
        var move := moves[index];
        var x := if (if move.x.Some? then move.x.value else -1) >= 0 then move.x.value + 1 else 0;
        var y := if (if move.y.Some? then move.y.value else -1) >= 0 then move.y.value + 1 else 0;
        assert NodeInfo(x, y, color) == NodeAt(moves, firstColor, index);
        nodesByMove := nodesByMove[index + 1 := NodeInfo(x, y, color)];
        color := -color;
      }
      ApplyPendingAnalysis();
    }

    /**
     * `applyScoreSeries`: with an array of at least two samples, the loss of
     * every move whose two samples are numbers is applied and the score
     * series takes over from per-move messages; otherwise nothing changes.
     */
    method ApplyScoreSeries(scores: Option<seq<Sample>>, movesLength: nat)
      requires Valid()
      modifies this`pendingAnalysis, this`analysisByMove, this`qualityCounts, this`usingScoreSeries
      ensures Valid()
      ensures scores.None? || |scores.value| < 2 ==>
                && analysisByMove == old(analysisByMove) && pendingAnalysis == old(pendingAnalysis)
                && usingScoreSeries == old(usingScoreSeries)
      ensures scores.Some? && |scores.value| >= 2 ==>
                && usingScoreSeries
                && analysisByMove == ClassifiedAll(old(analysisByMove), nodesByMove, SeriesLosses(scores.value, movesLength))
                && pendingAnalysis == old(pendingAnalysis) + Unplaced(nodesByMove, SeriesLosses(scores.value, movesLength))
    {
      if scores.None? || |scores.value| < 2 {
        return;
      }
      ApplySeriesLosses(scores.value, movesLength);
      usingScoreSeries := true;
    }

    /** The loop of `applyScoreSeries`, over moves 1..movesLength in order. */
    method ApplySeriesLosses(s: seq<Sample>, movesLength: nat)
      requires Valid()
      modifies this`pendingAnalysis, this`analysisByMove, this`qualityCounts
      ensures Valid()
      ensures analysisByMove == ClassifiedAll(old(analysisByMove), nodesByMove, SeriesLosses(s, movesLength))
      ensures pendingAnalysis == old(pendingAnalysis) + Unplaced(nodesByMove, SeriesLosses(s, movesLength))
    {
      ghost var am0 := analysisByMove;
      ghost var pending0 := pendingAnalysis;
      var hasInitial := |s| >= movesLength + 1;
      for moveNumber := 1 to movesLength + 1
        invariant Valid()
        invariant analysisByMove == SeriesClassified(am0, nodesByMove, s, movesLength, moveNumber)
        invariant pendingAnalysis == SeriesPending(pending0, nodesByMove, s, movesLength, moveNumber)
      {
        ApplySeriesMove(s, movesLength, hasInitial, moveNumber);
      }
      SeriesAppliedInOrder(am0, pending0, nodesByMove, s, movesLength);
    }

    /**
     * One turn of `applyScoreSeries`'s loop: the two samples around the move
     * are looked up and, when both are numbers, the absolute change between
     * them is applied to the move.
     */
    method ApplySeriesMove(s: seq<Sample>, movesLength: nat, hasInitial: bool, moveNumber: int)
      requires Valid() && hasInitial == (|s| >= movesLength + 1)
      modifies this`pendingAnalysis, this`analysisByMove, this`qualityCounts
      ensures Valid()
      ensures LossAt(s, movesLength, moveNumber).None? ==>
                analysisByMove == old(analysisByMove) && pendingAnalysis == old(pendingAnalysis)
      ensures LossAt(s, movesLength, moveNumber).Some? ==>
                && analysisByMove == Classified(old(analysisByMove), nodesByMove, moveNumber, LossAt(s, movesLength, moveNumber).value)
                && pendingAnalysis == if moveNumber in nodesByMove then old(pendingAnalysis)
                                      else old(pendingAnalysis)[moveNumber := LossAt(s, movesLength, moveNumber).value]
    {
      var prevIndex := if hasInitial then moveNumber - 1 else moveNumber - 2;
      var nextIndex := if hasInitial then moveNumber else moveNumber - 1;
      if prevIndex < 0 || nextIndex >= |s| {
        return;
      }
      var prevScore := s[prevIndex];
      var nextScore := s[nextIndex];
      if prevScore.None? || nextScore.None? {
        return;
      }
      var scoreLoss := Abs(nextScore.value - prevScore.value);
      ApplyMoveAnalysis(moveNumber, scoreLoss);
    }

    /**
     * The per-move socket message (index.js:484-491, and each `move-` entry
     * of a metadata payload): once the score series is in use it changes
     * nothing; otherwise an extracted loss is applied to the move.
     */
    method OnMoveMessage(moveNumber: int, payload: Option<MovePayload>)
      requires Valid()
      modifies this`pendingAnalysis, this`analysisByMove, this`qualityCounts
      ensures Valid()
      ensures usingScoreSeries || ExtractScoreLoss(payload).None? ==>
                analysisByMove == old(analysisByMove) && pendingAnalysis == old(pendingAnalysis)
      ensures !usingScoreSeries && ExtractScoreLoss(payload).Some? ==>
                && analysisByMove == Classified(old(analysisByMove), nodesByMove, moveNumber, ExtractScoreLoss(payload).value)
                && pendingAnalysis == if moveNumber in nodesByMove then old(pendingAnalysis)
                                      else old(pendingAnalysis)[moveNumber := ExtractScoreLoss(payload).value]
    {
      if !usingScoreSeries {
        var scoreLoss := ExtractScoreLoss(payload);
        if scoreLoss.Some? {
          ApplyMoveAnalysis(moveNumber, scoreLoss.value);
        }
      }
    }

    /**
     * The metadata message (index.js:454-465): clear the recorded analysis,
     * render the game, then take the score and win-rate series when they are
     * arrays.
     */
    method OnMetadata(gameState: GameState, scores: Option<seq<Sample>>, winRates: Option<seq<Sample>>)
      requires Valid()
      modifies this
      ensures Valid()
      ensures nodesByMove == NodesFor(gameState)
      ensures scoreSeries == (if scores.Some? then scores.value else [])
      ensures winrateSeries == (if winRates.Some? then winRates.value else [])
      ensures usingScoreSeries <==> scores.Some? && |scores.value| >= 2
      ensures !usingScoreSeries ==>
                analysisByMove == ClassifiedAll(map[], nodesByMove, old(pendingAnalysis)) && pendingAnalysis == map[]
      ensures usingScoreSeries ==>
                && analysisByMove == ClassifiedAll(ClassifiedAll(map[], nodesByMove, old(pendingAnalysis)), nodesByMove,
                                                   SeriesLosses(scores.value, |gameState.moves|))
                && pendingAnalysis == Unplaced(nodesByMove, SeriesLosses(scores.value, |gameState.moves|))
    {
      ResetQualityCounts();
      RenderGame(gameState);
      LoadSeries(scores, winRates, |gameState.moves|);
      if usingScoreSeries {
        NothingWaitingBefore(Unplaced(nodesByMove, SeriesLosses(scores.value, |gameState.moves|)));
      }
    }

    /** The series half of the metadata handler, on a freshly reset viewer. */
    method LoadSeries(scores: Option<seq<Sample>>, winRates: Option<seq<Sample>>, movesLength: nat)
      requires Valid() && !usingScoreSeries
      modifies this`pendingAnalysis, this`analysisByMove, this`qualityCounts, this`usingScoreSeries
      modifies this`scoreSeries, this`winrateSeries
      ensures Valid()
      ensures scoreSeries == (if scores.Some? then scores.value else old(scoreSeries))
      ensures winrateSeries == (if winRates.Some? then winRates.value else old(winrateSeries))
      ensures usingScoreSeries <==> scores.Some? && |scores.value| >= 2
      ensures !usingScoreSeries ==> analysisByMove == old(analysisByMove) && pendingAnalysis == old(pendingAnalysis)
      ensures usingScoreSeries ==>
                && analysisByMove == ClassifiedAll(old(analysisByMove), nodesByMove, SeriesLosses(scores.value, movesLength))
                && pendingAnalysis == old(pendingAnalysis) + Unplaced(nodesByMove, SeriesLosses(scores.value, movesLength))
    {
      if scores.Some? {
        scoreSeries := scores.value;
        ApplyScoreSeries(scores, movesLength);
      }
      if winRates.Some? {
        winrateSeries := winRates.value;
      }
    }

    /**
     * `updateCurrentMetrics`: the score and win-rate samples shown for a
     * move, both read at the move number clamped into the score series.
     */
    function CurrentMetrics(moveNumber: int): (r: (Sample, Sample))
      reads this
      ensures 0 <= moveNumber < |scoreSeries| ==> r.0 == scoreSeries[moveNumber]
      ensures 0 < |scoreSeries| <= moveNumber ==> r.0 == scoreSeries[|scoreSeries| - 1]
      ensures moveNumber < 0 && |scoreSeries| > 0 ==> r.0 == scoreSeries[0]
      ensures |scoreSeries| == 0 ==> r.0.None?
      ensures 0 <= moveNumber < |scoreSeries| ==>
                r.1 == if moveNumber < |winrateSeries| then winrateSeries[moveNumber] else None
      ensures 0 < |scoreSeries| <= moveNumber ==>
                r.1 == if |scoreSeries| - 1 < |winrateSeries| then winrateSeries[|scoreSeries| - 1] else None
      ensures moveNumber < 0 || |scoreSeries| == 0 ==>
                r.1 == if 0 < |winrateSeries| then winrateSeries[0] else None
    {
      var idx := SampleIndex(|scoreSeries|, moveNumber);
      (if idx < |scoreSeries| then scoreSeries[idx] else None,
       if idx < |winrateSeries| then winrateSeries[idx] else None)
    }
  }

  /**
   * Once the score series has been applied, no per-move message changes the
   * board's analysis: the series alone decides the qualities shown.
   */
  method SeriesIsFinal(v: LiveViewer, gameState: GameState, scores: seq<Sample>, moveNumber: int, payload: Option<MovePayload>)
    requires v.Valid() && |scores| >= 2
    modifies v
    ensures v.Valid()
    ensures v.usingScoreSeries
    ensures v.analysisByMove == ClassifiedAll(ClassifiedAll(map[], NodesFor(gameState), old(v.pendingAnalysis)),
                                              NodesFor(gameState), SeriesLosses(scores, |gameState.moves|))
  {
    v.OnMetadata(gameState, Some(scores), None);
    v.OnMoveMessage(moveNumber, payload);
  }
}
