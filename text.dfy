/**
 * String helpers shared by the player, result and URL code: decimal
 * rendering of integers, ASCII lower-casing, `String.prototype.trim`,
 * `String.prototype.includes` and the unanchored "literal then digits"
 * regular-expression searches the code uses.
 */
module Text {
  import opened Wrappers

  predicate IsDigit(c: char)
  {
    '0' <= c <= '9'
  }

  predicate AllDigits(s: string)
  {
    forall i :: 0 <= i < |s| ==> IsDigit(s[i])
  }

  function DigitChar(d: nat): (c: char)
    requires d < 10
    ensures IsDigit(c) && c as int - '0' as int == d
  {
    (('0' as int) + d) as char
  }

  function DigitValue(c: char): nat
    requires IsDigit(c)
  {
    c as int - '0' as int
  }

  /** `String(n)` for a non-negative integer: its decimal digits, without leading zeros. */
  function NatToString(n: nat): (s: string)
    ensures |s| >= 1 && AllDigits(s)
    ensures s[0] == '0' ==> n == 0
    decreases n
  {
    if n < 10 then [DigitChar(n)] else NatToString(n / 10) + [DigitChar(n % 10)]
  }

  /** The number a string of decimal digits denotes. */
  function DigitsValue(s: string): nat
    requires AllDigits(s)
  {
    if s == [] then 0 else 10 * DigitsValue(s[..|s| - 1]) + DigitValue(s[|s| - 1])
  }

  lemma {:induction false} NatToStringRoundTrip(n: nat)
    ensures DigitsValue(NatToString(n)) == n
  {
    if n >= 10 {
      NatToStringRoundTrip(n / 10);
      var s := NatToString(n / 10) + [DigitChar(n % 10)];
      assert s[..|s| - 1] == NatToString(n / 10);
    }
  }

  /** Different numbers render differently. */
  lemma NatToStringInjective(a: nat, b: nat)
    requires NatToString(a) == NatToString(b)
    ensures a == b
  {
    NatToStringRoundTrip(a);
    NatToStringRoundTrip(b);
  }

  function LowerChar(c: char): char
  {
    if 'A' <= c <= 'Z' then ((c as int) + 32) as char else c
  }

  /** `String.prototype.toLowerCase` restricted to ASCII letters. */
  function ToLowerAscii(s: string): (r: string)
    ensures |r| == |s|
    ensures forall i :: 0 <= i < |r| ==> !('A' <= r[i] <= 'Z')
    ensures forall i :: 0 <= i < |s| && !('A' <= s[i] <= 'Z') ==> r[i] == s[i]
  {
    seq(|s|, i requires 0 <= i < |s| => LowerChar(s[i]))
  }

  /** The characters `String.prototype.trim` removes: WhiteSpace and LineTerminator. */
  predicate IsJsSpace(c: char)
  {
    || c == '\t' || c == '\n' || c == '\U{000B}' || c == '\U{000C}' || c == '\r'
    || c == ' ' || c == '\U{00A0}' || c == '\U{1680}' || ('\U{2000}' <= c <= '\U{200A}')
    || c == '\U{2028}' || c == '\U{2029}' || c == '\U{202F}' || c == '\U{205F}'
    || c == '\U{3000}' || c == '\U{FEFF}'
  }

  predicate AllSpaces(s: string)
  {
    forall i :: 0 <= i < |s| ==> IsJsSpace(s[i])
  }

  /** The first index at or after `i` that does not hold a space. */
  function SkipSpaces(s: string, i: nat): (j: nat)
    requires i <= |s|
    ensures i <= j <= |s|
    ensures forall k :: i <= k < j ==> IsJsSpace(s[k])
    ensures j == |s| || !IsJsSpace(s[j])
    decreases |s| - i
  {
    if i < |s| && IsJsSpace(s[i]) then SkipSpaces(s, i + 1) else i
  }

  /** The end of `s[..j]` once its trailing spaces are dropped. */
  function DropTrailingSpaces(s: string, j: nat): (k: nat)
    requires j <= |s|
    ensures k <= j
    ensures forall t :: k <= t < j ==> IsJsSpace(s[t])
    ensures k == 0 || !IsJsSpace(s[k - 1])
  {
    if j > 0 && IsJsSpace(s[j - 1]) then DropTrailingSpaces(s, j - 1) else j
  }

  /** `String.prototype.trim`. */
  function Trim(s: string): (r: string)
    ensures r == [] <==> AllSpaces(s)
    ensures r != [] ==> !IsJsSpace(r[0]) && !IsJsSpace(r[|r| - 1])
    ensures exists i, j :: 0 <= i <= j <= |s| && r == s[i..j] && AllSpaces(s[..i]) && AllSpaces(s[j..])
  {
    var i := SkipSpaces(s, 0);
    var j := DropTrailingSpaces(s, |s|);
    if j <= i then
      assert i == |s|;
      assert s[..i] == s;
      []
    else
      assert s[i..j] != [];
      s[i..j]
  }

  predicate OccursAt(s: string, t: string, i: nat)
  {
    i + |t| <= |s| && s[i..i + |t|] == t
  }

  /** `s.includes(t, i)`. */
  function IncludesFrom(s: string, t: string, i: nat): (b: bool)
    requires i <= |s|
    ensures b <==> exists k :: i <= k <= |s| && OccursAt(s, t, k)
    decreases |s| - i
  {
    if OccursAt(s, t, i) then true
    else if i == |s| then false
    else IncludesFrom(s, t, i + 1)
  }

  function Includes(s: string, t: string): (b: bool)
    ensures b <==> exists k :: 0 <= k <= |s| && OccursAt(s, t, k)
  {
    IncludesFrom(s, t, 0)
  }

  /** The end of the maximal run of digits that starts at `i`. */
  function DigitRunEnd(s: string, i: nat): (j: nat)
    requires i <= |s|
    ensures i <= j <= |s|
    ensures forall k :: i <= k < j ==> IsDigit(s[k])
    ensures j == |s| || !IsDigit(s[j])
    decreases |s| - i
  {
    if i < |s| && IsDigit(s[i]) then DigitRunEnd(s, i + 1) else i
  }

  /** The regular expression `lit(\d+)` matches at position `i`. */
  predicate MatchesAt(s: string, lit: string, i: nat)
  {
    OccursAt(s, lit, i) && i + |lit| < |s| && IsDigit(s[i + |lit|])
  }

  /** The digits `(\d+)` captures when `lit(\d+)` matches at `i`. */
  function Capture(s: string, lit: string, i: nat): (d: string)
    requires MatchesAt(s, lit, i)
    ensures |d| >= 1 && AllDigits(d)
  {
    s[i + |lit|..DigitRunEnd(s, i + |lit|)]
  }

  /** A match of an alternation: where it starts and which alternative matched. */
  datatype Match = Match(pos: nat, alt: nat)

  /** The first alternative, from `a` on, that matches at `i` (alternatives are tried left to right). */
  function FirstAlternative(s: string, alts: seq<string>, i: nat, a: nat): (r: Option<nat>)
    requires a <= |alts|
    ensures r.Some? ==> a <= r.value < |alts| && MatchesAt(s, alts[r.value], i)
    ensures r.Some? ==> forall b :: a <= b < r.value ==> !MatchesAt(s, alts[b], i)
    ensures r.None? ==> forall b :: a <= b < |alts| ==> !MatchesAt(s, alts[b], i)
    decreases |alts| - a
  {
    if a == |alts| then None
    else if MatchesAt(s, alts[a], i) then Some(a)
    else FirstAlternative(s, alts, i, a + 1)
  }

  /**
   * The leftmost match at or after `i` of the unanchored regular expression
   * `alts[0](\d+)|alts[1](\d+)|...`.
   */
  function LeftmostMatch(s: string, alts: seq<string>, i: nat): (r: Option<Match>)
    requires i <= |s|
    ensures r.Some? ==> i <= r.value.pos < |s| && r.value.alt < |alts|
    ensures r.Some? ==> MatchesAt(s, alts[r.value.alt], r.value.pos)
    ensures r.Some? ==> forall b :: 0 <= b < r.value.alt ==> !MatchesAt(s, alts[b], r.value.pos)
    ensures r.Some? ==> forall k, b :: i <= k < r.value.pos && 0 <= b < |alts| ==> !MatchesAt(s, alts[b], k)
    ensures r.None? ==> forall k, b :: i <= k < |s| && 0 <= b < |alts| ==> !MatchesAt(s, alts[b], k)
    decreases |s| - i
  {
    if i == |s| then None
    else
      match FirstAlternative(s, alts, i, 0)
      case Some(a) => Some(Match(i, a))
      case None => LeftmostMatch(s, alts, i + 1)
  }

  /**
   * Alternative `b` matching at `k` is the match a regular-expression search
   * finds: no alternative matches further left, and no earlier alternative at `k`.
   */
  predicate IsLeftmostMatch(s: string, alts: seq<string>, k: nat, b: nat)
  {
    && k < |s| && b < |alts| && MatchesAt(s, alts[b], k)
    && (forall k', b' :: 0 <= k' < k && 0 <= b' < |alts| ==> !MatchesAt(s, alts[b'], k'))
    && (forall b' :: 0 <= b' < b ==> !MatchesAt(s, alts[b'], k))
  }

  /** The group captured by the leftmost match of `alts[0](\d+)|alts[1](\d+)|...`, if any. */
  function SearchDigitsAfter(s: string, alts: seq<string>): (r: Option<string>)
    ensures r.Some? ==> |r.value| >= 1 && AllDigits(r.value)
    ensures r.None? <==> forall k, b :: 0 <= k < |s| && 0 <= b < |alts| ==> !MatchesAt(s, alts[b], k)
    ensures r.Some? ==> exists k: nat, b: nat :: IsLeftmostMatch(s, alts, k, b) && r.value == Capture(s, alts[b], k)
    ensures forall k: nat, b: nat :: IsLeftmostMatch(s, alts, k, b) ==> r == Some(Capture(s, alts[b], k))
  {
    match LeftmostMatch(s, alts, 0)
    case Some(m) =>
      assert IsLeftmostMatch(s, alts, m.pos, m.alt);
      forall k: nat, b: nat | IsLeftmostMatch(s, alts, k, b) ensures k == m.pos && b == m.alt {
        assert !(k < m.pos) && !(m.pos < k);
        assert !(b < m.alt) && !(m.alt < b);
      }
      Some(Capture(s, alts[m.alt], m.pos))
    case None => None
  }

  /** `c` does not occur in `s`. */
  predicate Lacks(s: string, c: char)
  {
    forall k :: 0 <= k < |s| ==> s[k] != c
  }

  /** The first position at or after `i` that holds `c`, or `|s|` when there is none. */
  function IndexOf(s: string, c: char, i: nat): (r: nat)
    requires i <= |s|
    ensures i <= r <= |s|
    ensures r < |s| ==> s[r] == c
    ensures forall k :: i <= k < r ==> s[k] != c
    decreases |s| - i
  {
    if i == |s| || s[i] == c then i else IndexOf(s, c, i + 1)
  }

  /** `s.split(c)`: the pieces between the occurrences of `c`. */
  function Split(s: string, c: char): (r: seq<string>)
    ensures |r| >= 1
    ensures forall j :: 0 <= j < |r| ==> Lacks(r[j], c)
    decreases |s|
  {
    var i := IndexOf(s, c, 0);
    if i == |s| then [s] else [s[..i]] + Split(s[i + 1..], c)
  }

  /** `fields.join(c)`. */
  function Join(fields: seq<string>, c: char): string
    requires |fields| >= 1
    decreases |fields|
  {
    if |fields| == 1 then fields[0] else fields[0] + [c] + Join(fields[1..], c)
  }

  /** Splitting a join gives the fields back when none of them holds the separator. */
  lemma {:induction false} SplitJoin(fields: seq<string>, c: char)
    requires |fields| >= 1
    requires forall j :: 0 <= j < |fields| ==> Lacks(fields[j], c)
    ensures Split(Join(fields, c), c) == fields
    decreases |fields|
  {
    var s := Join(fields, c);
    var f := fields[0];
    if |fields| == 1 {
      assert IndexOf(s, c, 0) == |s|;
    } else {
      var rest := Join(fields[1..], c);
      assert s == f + [c] + rest;
      assert s[|f|] == c;
      assert IndexOf(s, c, 0) == |f|;
      assert s[..|f|] == f;
      assert s[|f| + 1..] == rest;
      SplitJoin(fields[1..], c);
      assert fields == [f] + fields[1..];
    }
  }

  /** Joining is injective on fields without the separator. */
  lemma JoinInjective(a: seq<string>, b: seq<string>, c: char)
    requires |a| >= 1 && forall j :: 0 <= j < |a| ==> Lacks(a[j], c)
    requires |b| >= 1 && forall j :: 0 <= j < |b| ==> Lacks(b[j], c)
    requires Join(a, c) == Join(b, c)
    ensures a == b
  {
    SplitJoin(a, c);
    SplitJoin(b, c);
  }
}
