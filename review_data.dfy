/**
 * The review payload the analyser consumes: the game state (move list and
 * first player) and the aligned score and win-rate series, plus the analysis
 * record src/api.js builds from it.
 */
module ReviewData {
  import opened Wrappers

  /** One series entry: `None` when the entry is not of type number. */
  type Sample = Option<real>

  /** A move's board coordinates; `None` for a null or missing coordinate. */
  datatype Move = Move(x: Option<int>, y: Option<int>)

  /** `metadata.game_state`; an empty `initialPlayer` stands for a missing one. */
  datatype GameState = GameState(moves: seq<Move>, initialPlayer: string)

  /** `metadata`: `None` in a series field means the field is not an array. */
  datatype Metadata = Metadata(
    gameState: Option<GameState>,
    scores: Option<seq<Sample>>,
    winRates: Option<seq<Sample>>)

  /** `{ gameId, metadata, scoreLosses }` as built by `fetchAnalysisForGame`. */
  datatype Analysis = Analysis(gameId: nat, metadata: Option<Metadata>, scoreLosses: seq<Option<real>>)

  function GameStateOf(a: Analysis): Option<GameState>
  {
    if a.metadata.Some? then a.metadata.value.gameState else None
  }

  /** `analysis.metadata?.win_rates`. */
  function WinRatesOf(a: Analysis): Option<seq<Sample>>
  {
    if a.metadata.Some? then a.metadata.value.winRates else None
  }

  /** `gameState?.moves?.length || analysis.scoreLosses.length`. */
  function MovesLength(a: Analysis): (n: nat)
    ensures GameStateOf(a).Some? && |GameStateOf(a).value.moves| > 0 ==> n == |GameStateOf(a).value.moves|
    ensures GameStateOf(a).None? || |GameStateOf(a).value.moves| == 0 ==> n == |a.scoreLosses|
  {
    match GameStateOf(a)
    case Some(gs) => if |gs.moves| > 0 then |gs.moves| else |a.scoreLosses|
    case None => |a.scoreLosses|
  }

  /** `gameState?.initial_player || 'black'`. */
  function InitialPlayer(a: Analysis): (p: string)
    ensures p != ""
    ensures GameStateOf(a).Some? && GameStateOf(a).value.initialPlayer != "" ==> p == GameStateOf(a).value.initialPlayer
    ensures GameStateOf(a).None? || GameStateOf(a).value.initialPlayer == "" ==> p == "black"
  {
    match GameStateOf(a)
    case Some(gs) => if gs.initialPlayer != "" then gs.initialPlayer else "black"
    case None => "black"
  }

  /** `analysis.scoreLosses[moveNumber - 1]`, undefined past the end. */
  function ScoreLossOf(a: Analysis, moveNumber: int): Option<real>
  {
    if 1 <= moveNumber <= |a.scoreLosses| then a.scoreLosses[moveNumber - 1] else None
  }
}
