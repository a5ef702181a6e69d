/**
 * Phase and side segmentation of src/analysis.js: which phase a move
 * number belongs to and which colour made it.
 */
module Phases {
  import opened Wrappers
  import opened Text
  import opened Utils

  datatype Phase = Opening | Middle | End

  function PhaseName(p: Phase): string
  {
    match p
    case Opening => "opening"
    case Middle => "middle"
    case End => "end"
  }

  /** Phases in game order. */
  function PhaseRank(p: Phase): nat
  {
    match p
    case Opening => 0
    case Middle => 1
    case End => 2
  }

  /** `getPhaseId`: moves up to 60 are the opening, up to 150 the middle game, the rest the end. */
  function PhaseOf(moveNumber: int): Phase
  {
    if moveNumber <= 60 then Opening
    else if moveNumber <= 150 then Middle
    else End
  }

  /** An entry of the `PHASES` table of src/state.js; `last` is `None` for an unbounded range. */
  datatype PhaseRange = PhaseRange(id: string, first: nat, last: Option<nat>)

  const PhaseTable: seq<PhaseRange> := [
    PhaseRange("total", 1, None),
    PhaseRange("opening", 1, Some(60)),
    PhaseRange("middle", 61, Some(150)),
    PhaseRange("end", 151, None)
  ]

  predicate InRange(r: PhaseRange, moveNumber: int)
  {
    r.first <= moveNumber && (r.last.None? || moveNumber <= r.last.value)
  }

  /**
   * `getPhaseId` agrees with the phase table: of the three phase ranges, a
   * move lies in exactly the one named by its phase.
   */
  lemma PhaseOfMatchesTable(moveNumber: int)
    requires moveNumber >= 1
    ensures forall i :: 1 <= i < |PhaseTable| ==>
              (InRange(PhaseTable[i], moveNumber) <==> PhaseTable[i].id == PhaseName(PhaseOf(moveNumber)))
  {
  }

  /** Phases are ordered along the game. */
  lemma PhaseOfMonotone(a: int, b: int)
    requires a <= b
    ensures PhaseRank(PhaseOf(a)) <= PhaseRank(PhaseOf(b))
  {
  }

  /** JavaScript's `%`: the remainder takes the sign of the dividend. */
  function JsRem(a: int, b: int): (r: int)
    requires b > 0
    ensures a >= 0 ==> r == a % b
    ensures a < 0 ==> r == -((-a) % b)
  {
    if a >= 0 then a % b else -((-a) % b)
  }

  /**
   * `(initialPlayer || 'black').toLowerCase() === 'white'`, letter by letter:
   * five letters that lower-case to "white". An empty string stands for a
   * missing value.
   */
  predicate WhiteStarts(initialPlayer: string)
  {
    && |initialPlayer| == 5
    && LowerChar(initialPlayer[0]) == 'w' && LowerChar(initialPlayer[1]) == 'h'
    && LowerChar(initialPlayer[2]) == 'i' && LowerChar(initialPlayer[3]) == 't'
    && LowerChar(initialPlayer[4]) == 'e'
  }

  /** The letter-by-letter test is the lower-casing comparison, with "black" standing in for a missing player. */
  lemma WhiteStartsIsLowerCaseWhite(initialPlayer: string)
    ensures WhiteStarts(initialPlayer) <==> ToLowerAscii(if initialPlayer == "" then "black" else initialPlayer) == "white"
  {
    var s := if initialPlayer == "" then "black" else initialPlayer;
    var r := ToLowerAscii(s);
    if r == "white" {
      assert r[0] == 'w' && r[1] == 'h' && r[2] == 'i' && r[3] == 't' && r[4] == 'e';
    }
    if WhiteStarts(initialPlayer) {
      assert forall i :: 0 <= i < 5 ==> r[i] == "white"[i];
    }
  }

  /** `getMoveColor`. */
  function GetMoveColor(moveNumber: int, initialPlayer: string): Side
  {
    var isOdd := JsRem(moveNumber, 2) == 1;
    if WhiteStarts(initialPlayer) then (if isOdd then White else Black)
    else (if isOdd then Black else White)
  }

  /** Sides alternate strictly from move 0 on. */
  lemma ColorsAlternate(k: int, initialPlayer: string)
    requires k >= 0
    ensures GetMoveColor(k, initialPlayer) != GetMoveColor(k + 1, initialPlayer)
    ensures GetMoveColor(k, initialPlayer) == GetMoveColor(k + 2, initialPlayer)
  {
  }

  /** Odd moves are white only when white starts; otherwise they are black. */
  lemma OddMoves(k: int, initialPlayer: string)
    requires k >= 1 && k % 2 == 1
    ensures GetMoveColor(k, initialPlayer) == if WhiteStarts(initialPlayer) then White else Black
  {
  }

  /** An initial player spelled in any case, such as "WHITE", starts the game as white. */
  lemma CaseInsensitiveWhite()
    ensures WhiteStarts("WHITE") && WhiteStarts("White")
    ensures !WhiteStarts("") && !WhiteStarts("black")
  {
  }

  /** Negative move numbers do not alternate: JavaScript's `-1 % 2` is `-1`, not `1`. */
  lemma NegativeMovesDoNotAlternate(initialPlayer: string)
    ensures GetMoveColor(-1, initialPlayer) == GetMoveColor(-2, initialPlayer)
  {
  }
}
