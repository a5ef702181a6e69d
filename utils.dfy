/**
 * Game and player helpers of src/utils.js: player-id parsing, rank
 * formatting, side and result lookups, labels and result strings.
 */
module Utils {
  import opened Wrappers
  import opened Text

  datatype Side = Black | White

  function SideName(s: Side): string
  {
    match s
    case Black => "black"
    case White => "white"
  }

  function Other(s: Side): Side
  {
    match s
    case Black => White
    case White => Black
  }

  /**
   * A player id as the code sees it: missing, null, or a value whose
   * `String(...)` rendering is `text` (numbers and strings alike).
   */
  datatype Ref = Undefined | Null | Value(text: string)

  /** `String(ref)`. */
  function RefString(r: Ref): string
  {
    match r
    case Undefined => "undefined"
    case Null => "null"
    case Value(t) => t
  }

  /** `a ?? b`. */
  function Coalesce(a: Ref, b: Ref): Ref
  {
    if a.Undefined? || a.Null? then b else a
  }

  /** A player object; an empty string stands for a missing or falsy name field. */
  datatype Player = Player(id: Ref, username: string, name: string, displayName: string)

  datatype Players = Players(black: Option<Player>, white: Option<Player>)

  /**
   * A finished-game record of the directory service. `blackLost`/`whiteLost`
   * are `None` when the field is not a boolean; an empty `outcome` stands for
   * a missing one.
   */
  datatype Game = Game(
    id: nat,
    width: int,
    height: int,
    ranked: bool,
    black: Ref,
    white: Ref,
    players: Option<Players>,
    blackLost: Option<bool>,
    whiteLost: Option<bool>,
    outcome: string)

  /** `game.players?.black`, `game.players?.white`. */
  function PlayerOf(game: Game, side: Side): Option<Player>
  {
    match game.players
    case None => None
    case Some(ps) => if side == Black then ps.black else ps.white
  }

  /** `game.black ?? game.players?.black?.id` (and likewise for white). */
  function IdOf(game: Game, side: Side): Ref
  {
    var nested := match PlayerOf(game, side) case Some(p) => p.id case None => Undefined;
    Coalesce(if side == Black then game.black else game.white, nested)
  }

  predicate PlaysAs(game: Game, playerId: string, side: Side)
  {
    RefString(IdOf(game, side)) == playerId
  }

  /** The search `/player\/(\d+)|user\/view\/(\d+)/`. */
  const ProfilePaths: seq<string> := ["player/", "user/view/"]

  /**
   * `parsePlayerId`: null for a missing or blank input, the trimmed input when
   * it is all digits, else the digits of the leftmost profile-path match.
   */
  function ParsePlayerId(input: Option<string>): (r: Option<string>)
    ensures r.Some? ==> |r.value| >= 1 && AllDigits(r.value)
    ensures input.None? || AllSpaces(input.value) ==> r.None?
    ensures input.Some? && |Trim(input.value)| >= 1 && AllDigits(Trim(input.value)) ==> r == Some(Trim(input.value))
    ensures input.Some? && !AllDigits(Trim(input.value)) ==>
              (r.None? <==> forall k, b :: 0 <= k < |Trim(input.value)| && 0 <= b < |ProfilePaths| ==>
                              !MatchesAt(Trim(input.value), ProfilePaths[b], k))
    ensures input.Some? && !AllDigits(Trim(input.value)) ==>
              forall k: nat, b: nat :: IsLeftmostMatch(Trim(input.value), ProfilePaths, k, b) ==>
                r == Some(Capture(Trim(input.value), ProfilePaths[b], k))
  {
    if input.None? || input.value == "" then None
    else
      var trimmed := Trim(input.value);
      if trimmed == "" then None
      else if AllDigits(trimmed) then Some(trimmed)
      else SearchDigitsAfter(trimmed, ProfilePaths)
  }

  /** A bare numeric id, with or without surrounding spaces, parses to itself. */
  lemma ParseNumericId(n: nat)
    ensures ParsePlayerId(Some(" " + NatToString(n) + "\n")) == Some(NatToString(n))
  {
    var d := NatToString(n);
    var s := " " + d + "\n";
    assert s[1] == d[0] && s[|s| - 2] == d[|d| - 1];
    assert SkipSpaces(s, 1) == 1;
    assert SkipSpaces(s, 0) == 1;
    assert DropTrailingSpaces(s, |s| - 1) == |s| - 1;
    assert DropTrailingSpaces(s, |s|) == |s| - 1;
    assert Trim(s) == s[1..|s| - 1] == d;
  }

  /** An input with no space at either end is its own trim. */
  lemma TrimUnpadded(s: string)
    requires |s| > 0 && !IsJsSpace(s[0]) && !IsJsSpace(s[|s| - 1])
    ensures Trim(s) == s
  {
    assert SkipSpaces(s, 0) == 0;
    assert DropTrailingSpaces(s, |s|) == |s|;
    assert s[0..|s|] == s;
  }

  /** In "x/player/12/user/view/34" the search finds `player/` at 2, capturing "12". */
  lemma ProfilePathAtTwo(s: string)
    requires s == "x/player/12/user/view/34"
    ensures IsLeftmostMatch(s, ProfilePaths, 2, 0) && Capture(s, ProfilePaths[0], 2) == "12"
  {
    assert s[2..9] == "player/" by {
      forall i | 0 <= i < 7 ensures s[2..9][i] == "player/"[i] {
      }
    }
    forall k', b' | 0 <= k' < 2 && 0 <= b' < |ProfilePaths| ensures !MatchesAt(s, ProfilePaths[b'], k') {
      assert s[k'] != ProfilePaths[b'][0];
    }
    DigitRunEndAt(s, 9, 11);
    assert s[9..11] == "12";
  }

  /** Of two profile paths in one input, the leftmost one gives the id. */
  lemma LeftmostProfilePath()
    ensures ParsePlayerId(Some("x/player/12/user/view/34")) == Some("12")
  {
    var s := "x/player/12/user/view/34";
    TrimUnpadded(s);
    assert !IsDigit(Trim(s)[0]);
    ProfilePathAtTwo(Trim(s));
  }

  /** `Math.round` on a finite number: round half up. */
  function JsRound(x: real): (r: int)
    ensures r as real - 0.5 <= x < r as real + 0.5
  {
    (x + 0.5).Floor
  }

  /** `Math.max(1, n)`. */
  function AtLeastOne(n: int): (r: nat)
    ensures r >= 1 && r >= n
    ensures n >= 1 ==> r == n
  {
    if n >= 1 then n else 1
  }

  /**
   * `formatRank`: `None` stands for a value that is not a finite number. Dan
   * ranks from 30 up, kyu ranks below, the number shown never below 1.
   */
  function FormatRank(value: Option<real>): (r: Option<string>)
    ensures r.Some? <==> value.Some?
    ensures r.Some? ==> |r.value| >= 2 && AllDigits(r.value[..|r.value| - 1])
    ensures r.Some? ==> r.value[0] != '0'
    ensures r.Some? ==> DigitsValue(r.value[..|r.value| - 1]) >= 1
    ensures r.Some? ==>
              DigitsValue(r.value[..|r.value| - 1]) ==
                AtLeastOne(JsRound(if value.value >= 30.0 then value.value - 29.0 else 30.0 - value.value))
    ensures r.Some? ==> r.value[|r.value| - 1] == if value.value >= 30.0 then 'd' else 'k'
  {
    match value
    case None => None
    case Some(v) =>
      var n := if v >= 30.0 then AtLeastOne(JsRound(v - 29.0)) else AtLeastOne(JsRound(30.0 - v));
      var s := NatToString(n) + [if v >= 30.0 then 'd' else 'k'];
      assert s[..|s| - 1] == NatToString(n);
      NatToStringRoundTrip(n);
      Some(s)
  }

  /** `Math.round` leaves whole numbers unchanged. */
  lemma JsRoundWhole(k: int)
    ensures JsRound(k as real) == k
  {
  }

  /** The whole rank 29 + k is shown as (k)d. */
  lemma FormatDanRank(k: nat)
    requires k >= 1
    ensures FormatRank(Some((29 + k) as real)) == Some(NatToString(k) + "d")
  {
    var v := (29 + k) as real;
    assert v - 29.0 == k as real;
    JsRoundWhole(k);
    assert AtLeastOne(JsRound(v - 29.0)) == k;
  }

  /** The whole rank 30 - k is shown as (k)k. */
  lemma FormatKyuRank(k: nat)
    requires k >= 1
    ensures FormatRank(Some((30 - k) as real)) == Some(NatToString(k) + "k")
  {
    var v := (30 - k) as real;
    assert 30.0 - v == k as real;
    JsRoundWhole(k);
    assert AtLeastOne(JsRound(30.0 - v)) == k;
  }

  /** Half ranks round up, towards the weaker rank on the kyu side and the stronger one on the dan side. */
  lemma HalfRanks()
    ensures FormatRank(Some(29.5)) == Some("1k")
    ensures FormatRank(Some(28.5)) == Some("2k")
    ensures FormatRank(Some(30.5)) == Some("2d")
  {
    assert JsRound(30.0 - 29.5) == 1 && JsRound(30.0 - 28.5) == 2 && JsRound(30.5 - 29.0) == 2;
    assert NatToString(1) == [DigitChar(1)] == "1";
    assert NatToString(2) == [DigitChar(2)] == "2";
    assert NatToString(1) + ['k'] == "1k";
    assert NatToString(2) + ['k'] == "2k";
    assert NatToString(2) + ['d'] == "2d";
  }

  /** `player?.username || player?.name || player?.display_name || 'Unknown'`. */
  function GetDisplayName(player: Option<Player>): (r: string)
    ensures r != ""
    ensures player.None? ==> r == "Unknown"
    ensures player.Some? && player.value.username != "" ==> r == player.value.username
    ensures player.Some? && player.value.username == "" && player.value.name != "" ==> r == player.value.name
    ensures player.Some? && player.value.username == "" && player.value.name == "" && player.value.displayName != "" ==>
              r == player.value.displayName
    ensures player.Some? && player.value.username == "" && player.value.name == "" && player.value.displayName == "" ==>
              r == "Unknown"
    ensures r != "Unknown" ==> player.Some? && r in {player.value.username, player.value.name, player.value.displayName}
  {
    match player
    case None => "Unknown"
    case Some(p) =>
      if p.username != "" then p.username
      else if p.name != "" then p.name
      else if p.displayName != "" then p.displayName
      else "Unknown"
  }

  /** `getPlayerSide`: black is checked first, then white. */
  function GetPlayerSide(game: Game, playerId: string): (r: Option<Side>)
    ensures r == Some(Black) <==> PlaysAs(game, playerId, Black)
    ensures r == Some(White) <==> !PlaysAs(game, playerId, Black) && PlaysAs(game, playerId, White)
    ensures r.None? <==> !PlaysAs(game, playerId, Black) && !PlaysAs(game, playerId, White)
  {
    if PlaysAs(game, playerId, Black) then Some(Black)
    else if PlaysAs(game, playerId, White) then Some(White)
    else None
  }

  /** The top-level `game.black` id decides over `players.black.id`. */
  lemma TopLevelIdWins(game: Game, playerId: string, text: string)
    requires game.black == Value(text)
    ensures GetPlayerSide(game, playerId) == Some(Black) <==> text == playerId
  {
  }

  datatype GameResult = Win | Loss | NotAvailable

  /** `getResultForPlayer`: 'W', 'L' or 'N/A'. */
  function GetResultForPlayer(game: Game, playerId: string): (r: GameResult)
    ensures GetPlayerSide(game, playerId).None? ==> r == NotAvailable
    ensures GetPlayerSide(game, playerId).Some? ==>
              var lost := if GetPlayerSide(game, playerId) == Some(Black) then game.blackLost else game.whiteLost;
              r == match lost case None => NotAvailable case Some(b) => if b then Loss else Win
  {
    var isBlack := PlaysAs(game, playerId, Black);
    var isWhite := PlaysAs(game, playerId, White);
    if !isBlack && !isWhite then NotAvailable
    else
      var lost := if isBlack then game.blackLost else game.whiteLost;
      match lost
      case None => NotAvailable
      case Some(b) => if b then Loss else Win
  }

  function ResultCode(r: GameResult): string
  {
    match r
    case Win => "W"
    case Loss => "L"
    case NotAvailable => "N/A"
  }

  /** `getGameLabel`: "<black> vs <white>". */
  function GetGameLabel(game: Game): (r: string)
    ensures var b := GetDisplayName(PlayerOf(game, Black));
            var w := GetDisplayName(PlayerOf(game, White));
            |r| == |b| + 4 + |w| && r[..|b|] == b && OccursAt(r, " vs ", |b|) && r[|b| + 4..] == w
  {
    var b := GetDisplayName(PlayerOf(game, Black));
    var w := GetDisplayName(PlayerOf(game, White));
    var r := b + " vs " + w;
    assert r[..|b|] == b && r[|b|..|b| + 4] == " vs " && r[|b| + 4..] == w;
    r
  }

  /** A game without player objects is labelled with both fallbacks. */
  lemma UnknownPlayersLabel(game: Game)
    requires PlayerOf(game, Black).None? && PlayerOf(game, White).None?
    ensures GetGameLabel(game) == "Unknown vs Unknown"
  {
  }

  /** When `a` holds no " vs", the first " vs " of `a + " vs " + b` is the one right after `a`. */
  lemma {:induction false} FirstSeparator(a: string, b: string)
    requires !Includes(a, " vs")
    ensures OccursAt(a + " vs " + b, " vs ", |a|)
    ensures forall k :: 0 <= k < |a| ==> !OccursAt(a + " vs " + b, " vs ", k)
  {
    var s := a + " vs " + b;
    assert s[|a|..|a| + 4] == " vs ";
    forall k | 0 <= k < |a| ensures !OccursAt(s, " vs ", k) {
      if k + 3 <= |a| {
        assert !OccursAt(a, " vs", k);
        assert s[k..k + 3] == a[k..k + 3];
        assert k + 4 <= |s| ==> s[k..k + 4][..3] == s[k..k + 3];
      } else {
        assert s[|a|] == ' ';
        assert k + 4 <= |s| ==> s[k..k + 4][|a| - k] == s[|a|];
      }
    }
  }

  /** Two names without " vs" are recovered from the label that joins them. */
  lemma {:induction false} LabelSplits(a: string, b: string, c: string, d: string)
    requires !Includes(a, " vs") && !Includes(c, " vs")
    requires a + " vs " + b == c + " vs " + d
    ensures a == c && b == d
  {
    var s := a + " vs " + b;
    FirstSeparator(a, b);
    FirstSeparator(c, d);
    assert |a| == |c|;
    assert a == s[..|a|] == c;
    assert b == s[|a| + 4..] == d;
  }

  /** The label determines both display names when the black one holds no " vs". */
  lemma GameLabelDeterminesNames(g: Game, h: Game)
    requires !Includes(GetDisplayName(PlayerOf(g, Black)), " vs") && !Includes(GetDisplayName(PlayerOf(h, Black)), " vs")
    requires GetGameLabel(g) == GetGameLabel(h)
    ensures GetDisplayName(PlayerOf(g, Black)) == GetDisplayName(PlayerOf(h, Black))
    ensures GetDisplayName(PlayerOf(g, White)) == GetDisplayName(PlayerOf(h, White))
  {
    var a, b := GetDisplayName(PlayerOf(g, Black)), GetDisplayName(PlayerOf(g, White));
    var c, d := GetDisplayName(PlayerOf(h, Black)), GetDisplayName(PlayerOf(h, White));
    assert GetGameLabel(g) == a + " vs " + b;
    assert GetGameLabel(h) == c + " vs " + d;
    LabelSplits(a, b, c, d);
  }

  /** `getOpponent`: the other side's player object, or null. */
  function GetOpponent(game: Game, playerId: string): (r: Option<Player>)
    ensures GetPlayerSide(game, playerId).None? ==> r.None?
    ensures GetPlayerSide(game, playerId).Some? ==> r == PlayerOf(game, Other(GetPlayerSide(game, playerId).value))
  {
    match GetPlayerSide(game, playerId)
    case Some(Black) => PlayerOf(game, White)
    case Some(White) => PlayerOf(game, Black)
    case None => None
  }

  /** JavaScript's `.` in a regular expression matches anything but a line terminator. */
  predicate IsLineTerminator(c: char)
  {
    c == '\n' || c == '\r' || c == '\U{2028}' || c == '\U{2029}'
  }

  /** Position of the leftmost digit, the start of every match of `[0-9]+...`. */
  function FirstDigit(s: string): (r: Option<nat>)
    ensures r.Some? ==> r.value < |s| && IsDigit(s[r.value]) && forall k :: 0 <= k < r.value ==> !IsDigit(s[k])
    ensures r.None? ==> forall k :: 0 <= k < |s| ==> !IsDigit(s[k])
  {
    forall k | 0 <= k < |s| ensures MatchesAt(s, [""][0], k) == IsDigit(s[k]) {
      assert s[k..k + 0] == "";
    }
    match LeftmostMatch(s, [""], 0)
    case None => None
    case Some(m) => Some(m.pos)
  }

  /**
   * The points group of `/([0-9]+(?:\\.[0-9]+)?)/` as written at
   * src/utils.js:67: the optional part needs a backslash, any character, then digits.
   */
  function PointsAsWritten(outcome: string): (r: Option<string>)
    ensures r.Some? ==> |r.value| >= 1 && IsDigit(r.value[0])
    ensures r.None? <==> forall k :: 0 <= k < |outcome| ==> !IsDigit(outcome[k])
  {
    match FirstDigit(outcome)
    case None => None
    case Some(k) =>
      var e := DigitRunEnd(outcome, k);
      if e + 2 < |outcome| && outcome[e] == '\\' && !IsLineTerminator(outcome[e + 1]) && IsDigit(outcome[e + 2])
      then Some(outcome[k..DigitRunEnd(outcome, e + 2)])
      else Some(outcome[k..e])
  }

  /** The evidently intended `/([0-9]+(?:\.[0-9]+)?)/`: digits, optionally a dot and more digits. */
  function Points(outcome: string): (r: Option<string>)
    ensures r.Some? ==> |r.value| >= 1 && IsDigit(r.value[0])
    ensures r.None? <==> forall k :: 0 <= k < |outcome| ==> !IsDigit(outcome[k])
  {
    match FirstDigit(outcome)
    case None => None
    case Some(k) =>
      var e := DigitRunEnd(outcome, k);
      if e + 1 < |outcome| && outcome[e] == '.' && IsDigit(outcome[e + 1])
      then Some(outcome[k..DigitRunEnd(outcome, e + 1)])
      else Some(outcome[k..e])
  }

  /** Over a segment of digits that ends at a non-digit (or the end), the run ends there. */
  lemma {:induction false} DigitRunEndAt(s: string, i: nat, j: nat)
    requires i <= j <= |s|
    requires forall k :: i <= k < j ==> IsDigit(s[k])
    requires j == |s| || !IsDigit(s[j])
    ensures DigitRunEnd(s, i) == j
    decreases j - i
  {
    if i < j {
      DigitRunEndAt(s, i + 1, j);
    }
  }

  /** A decimal score `a.b` is read as `a` alone by the expression as written. */
  lemma PointsAsWrittenDropsDecimals(a: string, b: string)
    requires |a| >= 1 && AllDigits(a) && |b| >= 1 && AllDigits(b)
    ensures PointsAsWritten(a + "." + b) == Some(a)
  {
    var s := a + "." + b;
    assert IsDigit(s[0]);
    DigitRunEndAt(s, 0, |a|);
    assert s[0..|a|] == a;
  }

  /** The intended expression reads the whole decimal score `a.b`. */
  lemma PointsReadsDecimals(a: string, b: string)
    requires |a| >= 1 && AllDigits(a) && |b| >= 1 && AllDigits(b)
    ensures Points(a + "." + b) == Some(a + "." + b)
  {
    var s := a + "." + b;
    assert IsDigit(s[0]);
    DigitRunEndAt(s, 0, |a|);
    assert s[|a| + 1] == b[0];
    DigitRunEndAt(s, |a| + 1, |s|);
    assert s[0..|s|] == s;
  }

  /** The example from the result column: "6.5" shows as "6" as written, "6.5" as intended. */
  lemma HalfPointExample()
    ensures PointsAsWritten("b+6.5") == Some("6")
    ensures Points("b+6.5") == Some("6.5")
  {
    var s := "b+6.5";
    assert FirstDigit(s) == Some(2) by {
      assert IsDigit(s[2]) && !IsDigit(s[0]) && !IsDigit(s[1]);
    }
    DigitRunEndAt(s, 2, 3);
    DigitRunEndAt(s, 4, 5);
    assert s[2..3] == "6";
    assert s[2..5] == "6.5";
  }

  /** The result letter used in the result column. */
  function SideLetter(r: GameResult): string
  {
    match r
    case Win => "W"
    case Loss => "L"
    case NotAvailable => "N"
  }

  /**
   * `formatResultForPlayer` as written: resignation first, then time, then
   * the points group of `PointsAsWritten`, else "?".
   */
  function FormatResultForPlayer(game: Game, playerId: string): (r: string)
    ensures var outcome := ToLowerAscii(game.outcome);
            var side := SideLetter(GetResultForPlayer(game, playerId));
            && (Includes(outcome, "resign") ==> r == side + " + R")
            && (!Includes(outcome, "resign") && Includes(outcome, "time") ==> r == side + " + T")
            && (!Includes(outcome, "resign") && !Includes(outcome, "time") ==>
                  r == side + " + " + match PointsAsWritten(outcome) case Some(p) => p case None => "?")
  {
    FormatResult(SideLetter(GetResultForPlayer(game, playerId)), ToLowerAscii(game.outcome), PointsAsWritten(ToLowerAscii(game.outcome)))
  }

  /** The evidently intended `formatResultForPlayer`: the same order, with the corrected `Points`. */
  function FormatResultIntended(game: Game, playerId: string): (r: string)
    ensures var outcome := ToLowerAscii(game.outcome);
            var side := SideLetter(GetResultForPlayer(game, playerId));
            && (Includes(outcome, "resign") ==> r == side + " + R")
            && (!Includes(outcome, "resign") && Includes(outcome, "time") ==> r == side + " + T")
            && (!Includes(outcome, "resign") && !Includes(outcome, "time") ==>
                  r == side + " + " + match Points(outcome) case Some(p) => p case None => "?")
  {
    FormatResult(SideLetter(GetResultForPlayer(game, playerId)), ToLowerAscii(game.outcome), Points(ToLowerAscii(game.outcome)))
  }

  function FormatResult(side: string, outcome: string, points: Option<string>): string
  {
    if Includes(outcome, "resign") then side + " + R"
    else if Includes(outcome, "time") then side + " + T"
    else match points
      case Some(p) => side + " + " + p
      case None => side + " + ?"
  }
}
