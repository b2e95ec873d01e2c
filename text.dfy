/**
 * The pieces of JavaScript's string library that the dashboard's routines use:
 * trimming, searching, splitting and joining, ASCII lower-casing and decimal
 * rendering. Strings are sequences of Unicode code points.
 */
module Text {
  import opened Wrappers

  /** A code point that `trim` removes and `\s` matches: ECMAScript WhiteSpace or LineTerminator. */
  predicate IsWhite(c: char) {
    || c == '\t' || c == '\n' || c == '\U{B}' || c == '\U{C}' || c == '\r' || c == ' '
    || c == '\U{A0}' || c == '\U{1680}' || ('\U{2000}' <= c <= '\U{200A}')
    || c == '\U{2028}' || c == '\U{2029}' || c == '\U{202F}' || c == '\U{205F}'
    || c == '\U{3000}' || c == '\U{FEFF}'
  }

  /** A code point that the regular-expression `.` does not match and before which `$` matches in multiline mode. */
  predicate IsLineTerminator(c: char) {
    c == '\n' || c == '\r' || c == '\U{2028}' || c == '\U{2029}'
  }

  predicate AllWhite(s: string) {
    forall i :: 0 <= i < |s| ==> IsWhite(s[i])
  }

  /** The end of the run of white space that starts at `i`. */
  function SkipWhite(s: string, i: nat): (j: nat)
    requires i <= |s|
    ensures i <= j <= |s|
    decreases |s| - i
  {
    if i < |s| && IsWhite(s[i]) then SkipWhite(s, i + 1) else i
  }

  /** `SkipWhite` passes over white space only and stops at the first character that is not. */
  lemma {:induction false} SkipWhiteSkips(s: string, i: nat)
    requires i <= |s|
    ensures forall k :: i <= k < SkipWhite(s, i) ==> IsWhite(s[k])
    ensures SkipWhite(s, i) < |s| ==> !IsWhite(s[SkipWhite(s, i)])
    decreases |s| - i
  {
    if i < |s| && IsWhite(s[i]) {
      SkipWhiteSkips(s, i + 1);
    }
  }

  /** `SkipWhite` stops at the first character after `i` that is not white space. */
  lemma {:induction false} SkipWhiteTo(s: string, i: nat, j: nat)
    requires i <= j <= |s|
    requires forall k :: i <= k < j ==> IsWhite(s[k])
    requires j == |s| || !IsWhite(s[j])
    ensures SkipWhite(s, i) == j
    decreases j - i
  {
    if i < j {
      SkipWhiteTo(s, i + 1, j);
    }
  }

  /** The start of the run of white space that ends at `j`. */
  function SkipWhiteBack(s: string, j: nat): (i: nat)
    requires j <= |s|
    ensures i <= j
  {
    if 0 < j && IsWhite(s[j - 1]) then SkipWhiteBack(s, j - 1) else j
  }

  /** `SkipWhiteBack` passes back over white space only and stops after the last character that is not. */
  lemma {:induction false} SkipWhiteBackSkips(s: string, j: nat)
    requires j <= |s|
    ensures forall k :: SkipWhiteBack(s, j) <= k < j ==> IsWhite(s[k])
    ensures 0 < SkipWhiteBack(s, j) ==> !IsWhite(s[SkipWhiteBack(s, j) - 1])
  {
    if 0 < j && IsWhite(s[j - 1]) {
      SkipWhiteBackSkips(s, j - 1);
    }
  }

  /** `s.trimStart()` */
  function TrimStart(s: string): (r: string)
    ensures |r| <= |s| && r == s[|s| - |r|..]
  {
    s[SkipWhite(s, 0)..]
  }

  /** `TrimStart` drops the leading white space, and only that. */
  lemma TrimStartDropsWhite(s: string)
    ensures TrimStart(s) == [] || !IsWhite(TrimStart(s)[0])
    ensures AllWhite(s[..|s| - |TrimStart(s)|])
  {
    SkipWhiteSkips(s, 0);
    var j := SkipWhite(s, 0);
    assert forall k :: 0 <= k < j ==> s[..j][k] == s[k];
  }

  /** Neither end of `s` is white space. */
  predicate IsTrimmed(s: string) {
    s == [] || (!IsWhite(s[0]) && !IsWhite(s[|s| - 1]))
  }

  /** The bounds of `s.trim()` within `s`: the first and one past the last character that is not white space. */
  function TrimBounds(s: string): (b: (nat, nat))
    ensures b.0 <= b.1 <= |s|
  {
    var a := SkipWhite(s, 0);
    if a == |s| then (a, a)
    else
      SkipWhiteSkips(s, 0);
      SkipWhiteBackSkips(s, |s|);
      (a, SkipWhiteBack(s, |s|))
  }

  /** Everything outside `TrimBounds` is white space, and the characters at its two ends are not. */
  lemma TrimBoundsTight(s: string)
    ensures forall k :: 0 <= k < TrimBounds(s).0 ==> IsWhite(s[k])
    ensures forall k :: TrimBounds(s).1 <= k < |s| ==> IsWhite(s[k])
    ensures TrimBounds(s).0 < TrimBounds(s).1 ==> !IsWhite(s[TrimBounds(s).0]) && !IsWhite(s[TrimBounds(s).1 - 1])
  {
    SkipWhiteSkips(s, 0);
    SkipWhiteBackSkips(s, |s|);
  }

  /** `s.trim()` */
  function Trim(s: string): (r: string)
    ensures |r| <= |s|
  {
    var b := TrimBounds(s);
    s[b.0..b.1]
  }

  /** `Trim` leaves no white space at either end, is empty exactly for blank input, and keeps a trimmed string. */
  lemma TrimTrims(s: string)
    ensures IsTrimmed(Trim(s))
    ensures Trim(s) == [] <==> AllWhite(s)
    ensures IsTrimmed(s) ==> Trim(s) == s
  {
    TrimBoundsTight(s);
    var b := TrimBounds(s);
    assert IsTrimmed(s) && s != [] ==> b == (0, |s|);
  }

  /** Trimming white space put in front of a trimmed, non-empty string gives the string back. */
  lemma TrimAfterWhite(w: string, s: string)
    requires AllWhite(w) && IsTrimmed(s) && s != []
    ensures Trim(w + s) == s
  {
    var t := w + s;
    TrimBoundsTight(t);
    var b := TrimBounds(t);
    assert t[|w|] == s[0] && t[|t| - 1] == s[|s| - 1];
    assert b.0 == |w| && b.1 == |t|;
    assert t[|w|..] == s;
  }

  /** Bounds with only white space outside them and none at their two ends are the trim bounds. */
  lemma TrimBoundsUnique(s: string, a: nat, e: nat)
    requires a < e <= |s|
    requires forall k :: 0 <= k < a ==> IsWhite(s[k])
    requires forall k :: e <= k < |s| ==> IsWhite(s[k])
    requires !IsWhite(s[a]) && !IsWhite(s[e - 1])
    ensures TrimBounds(s) == (a, e)
  {
    TrimBoundsTight(s);
    var b := TrimBounds(s);
    assert b.0 == a;
    assert b.1 == e;
  }

  /** White space put in front of any string is removed by trimming it. */
  lemma TrimDropsLeadingWhite(w: string, s: string)
    requires AllWhite(w)
    ensures Trim(w + s) == Trim(s)
  {
    TrimTrims(s);
    if AllWhite(s) {
      TrimTrims(w + s);
    } else {
      TrimAfterWhiteBounds(w, s);
    }
  }

  lemma TrimAfterWhiteBounds(w: string, s: string)
    requires AllWhite(w) && !AllWhite(s)
    ensures Trim(w + s) == Trim(s)
  {
    var t := w + s;
    TrimTrims(s);
    TrimBoundsTight(s);
    var c := TrimBounds(s);
    forall k | 0 <= k < |w| + c.0 ensures IsWhite(t[k]) {
      if k < |w| { assert t[k] == w[k]; } else { assert t[k] == s[k - |w|]; }
    }
    forall k | |w| + c.1 <= k < |t| ensures IsWhite(t[k]) {
      assert t[k] == s[k - |w|];
    }
    assert t[|w| + c.0] == s[c.0] && t[|w| + c.1 - 1] == s[c.1 - 1];
    TrimBoundsUnique(t, |w| + c.0, |w| + c.1);
    assert t[|w| + c.0..|w| + c.1] == s[c.0..c.1];
  }

  /** `t` occurs in `s` at `i`, compared character by character from the last. */
  predicate OccursAt(s: string, t: string, i: nat) {
    i + |t| <= |s| && MatchesUpTo(s, t, i, |t|)
  }

  /** The first `k` characters of `t` agree with those of `s` from `i` on. */
  predicate MatchesUpTo(s: string, t: string, i: nat, k: nat)
    requires i + |t| <= |s| && k <= |t|
  {
    k == 0 || (s[i + k - 1] == t[k - 1] && MatchesUpTo(s, t, i, k - 1))
  }

  /** `MatchesUpTo` is agreement at every position below `k`. */
  lemma {:induction false} MatchesUpToAgrees(s: string, t: string, i: nat, k: nat)
    requires i + |t| <= |s| && k <= |t|
    ensures MatchesUpTo(s, t, i, k) <==> forall m :: i <= m < i + k ==> s[m] == t[m - i]
  {
    if k > 0 {
      MatchesUpToAgrees(s, t, i, k - 1);
    }
  }

  /** An occurrence is a slice of `s` equal to `t`. */
  lemma OccursAtSlice(s: string, t: string, i: nat)
    ensures OccursAt(s, t, i) <==> i + |t| <= |s| && s[i..i + |t|] == t
  {
    if i + |t| <= |s| {
      MatchesUpToAgrees(s, t, i, |t|);
      var w := s[i..i + |t|];
      assert forall m :: 0 <= m < |t| ==> w[m] == s[m + i];
      assert forall m :: i <= m < i + |t| ==> s[m] == w[m - i];
    }
  }

  /** `s.indexOf(t, from)`: the leftmost occurrence at or after `from`. */
  function IndexOfFrom(s: string, t: string, from: nat): (r: Option<nat>)
    ensures r.Some? ==> from <= r.value && r.value + |t| <= |s|
    decreases |s| - from
  {
    if from + |t| > |s| then None
    else if OccursAt(s, t, from) then Some(from)
    else IndexOfFrom(s, t, from + 1)
  }

  /** `IndexOfFrom` finds an occurrence, and no occurrence lies between `from` and the one it finds. */
  lemma {:induction false} IndexOfFromFinds(s: string, t: string, from: nat)
    ensures IndexOfFrom(s, t, from).Some? ==> OccursAt(s, t, IndexOfFrom(s, t, from).value)
    ensures forall j :: from <= j && (IndexOfFrom(s, t, from).None? || j < IndexOfFrom(s, t, from).value) ==> !OccursAt(s, t, j)
    decreases |s| - from
  {
    if from + |t| <= |s| && !OccursAt(s, t, from) {
      IndexOfFromFinds(s, t, from + 1);
    }
  }

  function IndexOf(s: string, t: string): Option<nat> {
    IndexOfFrom(s, t, 0)
  }

  /** `s.includes(t)` */
  predicate Contains(s: string, t: string) {
    IndexOf(s, t).Some?
  }

  /** A character that `s` lacks cannot start an occurrence in it. */
  lemma NoOccurrenceWithoutFirstChar(s: string, t: string)
    requires t != [] && t[0] !in s
    ensures IndexOf(s, t).None?
  {
    IndexOfFromFinds(s, t, 0);
    forall j: nat | j + |t| <= |s| ensures !OccursAt(s, t, j) {
      MatchesUpToAgrees(s, t, j, |t|);
      assert s[j] != t[0];
    }
  }

  /** `parts.join(sep)` */
  function Join(parts: seq<string>, sep: string): string {
    if |parts| == 0 then ""
    else if |parts| == 1 then parts[0]
    else parts[0] + sep + Join(parts[1..], sep)
  }

  /** `s.split(sep)` for a non-empty separator string. */
  function Split(s: string, sep: string): (parts: seq<string>)
    requires sep != []
    ensures parts != []
    decreases |s|
  {
    match IndexOf(s, sep)
    case None => [s]
    case Some(i) => [s[..i]] + Split(s[i + |sep|..], sep)
  }

  /** Joining the pieces of a split with the same separator gives the string back. */
  lemma {:induction false} JoinSplit(s: string, sep: string)
    requires sep != []
    ensures Join(Split(s, sep), sep) == s
    decreases |s|
  {
    match IndexOf(s, sep)
    case None =>
    case Some(i) =>
      IndexOfFromFinds(s, sep, 0);
      OccursAtSlice(s, sep, i);
      var rest := s[i + |sep|..];
      JoinSplit(rest, sep);
      var tail := Split(rest, sep);
      assert Split(s, sep) == [s[..i]] + tail;
      if |tail| == 0 {
      } else {
        assert Join([s[..i]] + tail, sep) == s[..i] + sep + Join(tail, sep);
        assert s == s[..i] + s[i..i + |sep|] + rest;
      }
  }

  /**
   * Splitting a join recovers the parts, provided no part contains the
   * separator's first character (then no occurrence straddles a boundary).
   */
  lemma {:induction false} SplitJoin(parts: seq<string>, sep: string)
    requires sep != [] && parts != []
    requires forall k :: 0 <= k < |parts| ==> sep[0] !in parts[k]
    ensures Split(Join(parts, sep), sep) == parts
    decreases |parts|
  {
    if |parts| == 1 {
      NoOccurrenceWithoutFirstChar(parts[0], sep);
    } else {
      var p := parts[0];
      var rest := Join(parts[1..], sep);
      var s := p + sep + rest;
      assert Join(parts, sep) == s;
      assert OccursAt(s, sep, |p|) by {
        OccursAtSlice(s, sep, |p|);
        assert s[|p|..|p| + |sep|] == sep;
      }
      forall j | 0 <= j < |p| ensures !OccursAt(s, sep, j) {
        assert s[j] == p[j];
        if j + |sep| <= |s| {
          MatchesUpToAgrees(s, sep, j, |sep|);
        }
      }
      IndexOfFromFinds(s, sep, 0);
      assert IndexOf(s, sep) == Some(|p|);
      assert s[..|p|] == p;
      assert s[|p| + |sep|..] == rest;
      SplitJoin(parts[1..], sep);
      assert parts == [p] + parts[1..];
    }
  }

  /** A join holds no character that neither the separator nor any part holds. */
  lemma {:induction false} JoinAvoids(parts: seq<string>, sep: string, c: char)
    requires c !in sep
    requires forall k :: 0 <= k < |parts| ==> c !in parts[k]
    ensures c !in Join(parts, sep)
    decreases |parts|
  {
    if |parts| > 1 {
      JoinAvoids(parts[1..], sep, c);
    }
  }

  /** ASCII upper-casing of one code point. */
  function UpperChar(c: char): char {
    if 'a' <= c <= 'z' then (c as int - 32) as char else c
  }

  /** ASCII lower-casing of one code point. */
  function LowerChar(c: char): char {
    if 'A' <= c <= 'Z' then (c as int + 32) as char else c
  }

  /** `s.toLowerCase()`, restricted to the ASCII letters. */
  function ToLower(s: string): (r: string)
    ensures |r| == |s|
  {
    seq(|s|, i requires 0 <= i < |s| => LowerChar(s[i]))
  }

  /**
   * `t` occurs in `s` at `i` under a regular expression's `i` flag. For a
   * pattern of ASCII characters that flag folds the ASCII letters only: a
   * character outside ASCII never matches one inside it.
   */
  predicate OccursFoldedAt(s: string, t: string, i: nat) {
    i + |t| <= |s| && FoldedUpTo(s, t, i, |t|)
  }

  /** The first `k` characters of `t` agree with those of `s` from `i` on, up to ASCII case. */
  predicate FoldedUpTo(s: string, t: string, i: nat, k: nat)
    requires i + |t| <= |s| && k <= |t|
  {
    k == 0 || (LowerChar(s[i + k - 1]) == LowerChar(t[k - 1]) && FoldedUpTo(s, t, i, k - 1))
  }

  /** `FoldedUpTo` is agreement up to case at every position below `k`. */
  lemma {:induction false} FoldedUpToAgrees(s: string, t: string, i: nat, k: nat)
    requires i + |t| <= |s| && k <= |t|
    ensures FoldedUpTo(s, t, i, k) <==> forall m :: i <= m < i + k ==> LowerChar(s[m]) == LowerChar(t[m - i])
  {
    if k > 0 {
      FoldedUpToAgrees(s, t, i, k - 1);
    }
  }

  /** A case-folded occurrence is a slice whose lower-cased form is that of `t`. */
  lemma OccursFoldedSlice(s: string, t: string, i: nat)
    ensures OccursFoldedAt(s, t, i) <==> i + |t| <= |s| && ToLower(s[i..i + |t|]) == ToLower(t)
  {
    if i + |t| <= |s| {
      FoldedUpToAgrees(s, t, i, |t|);
      var w := ToLower(s[i..i + |t|]);
      assert forall m :: 0 <= m < |t| ==> w[m] == LowerChar(s[m + i]);
      assert forall m :: i <= m < i + |t| ==> LowerChar(s[m]) == w[m - i];
      assert forall m :: 0 <= m < |t| ==> ToLower(t)[m] == LowerChar(t[m]);
    }
  }

  /** `s.substring(0, n)` */
  function Prefix(s: string, n: nat): (r: string)
    ensures r <= s && |r| == if n < |s| then n else |s|
  {
    if n < |s| then s[..n] else s
  }

  /** The pattern `acc += (acc ? sep : '') + x`: the separator is written only after a non-empty accumulator. */
  function AppendWithSeparator(acc: string, sep: string, x: string): string {
    acc + (if acc != "" then sep else "") + x
  }

  function DigitChar(d: nat): (c: char)
    requires d < 10
    ensures '0' <= c <= '9'
  {
    ('0' as int + d) as char
  }

  /** The decimal rendering of a natural number, as template literals print it. */
  function NatToString(n: nat): (r: string)
    ensures r != []
    ensures forall i :: 0 <= i < |r| ==> '0' <= r[i] <= '9'
  {
    if n < 10 then [DigitChar(n)] else NatToString(n / 10) + [DigitChar(n % 10)]
  }

  /** The first line terminator at or after `i`, or the end of `s`. */
  function LineEnd(s: string, i: nat): (j: nat)
    requires i <= |s|
    ensures i <= j <= |s|
    decreases |s| - i
  {
    if i < |s| && !IsLineTerminator(s[i]) then LineEnd(s, i + 1) else i
  }

  /** `LineEnd` passes over characters other than line terminators and stops at the first terminator. */
  lemma {:induction false} LineEndStops(s: string, i: nat)
    requires i <= |s|
    ensures forall k :: i <= k < LineEnd(s, i) ==> !IsLineTerminator(s[k])
    ensures LineEnd(s, i) < |s| ==> IsLineTerminator(s[LineEnd(s, i)])
    decreases |s| - i
  {
    if i < |s| && !IsLineTerminator(s[i]) {
      LineEndStops(s, i + 1);
    }
  }

  /** The text before the first line terminator: what `.+` can cover. */
  function TakeLine(s: string): (r: string)
    ensures r <= s
  {
    s[..LineEnd(s, 0)]
  }

  /** `TakeLine` holds no line terminator and stops only at one or at the end. */
  lemma TakeLineStops(s: string)
    ensures forall i :: 0 <= i < |TakeLine(s)| ==> !IsLineTerminator(TakeLine(s)[i])
    ensures |TakeLine(s)| < |s| ==> IsLineTerminator(s[|TakeLine(s)|])
  {
    LineEndStops(s, 0);
  }

  predicate IsAsciiDigit(c: char) {
    '0' <= c <= '9'
  }

  /** The end of the run of ASCII digits that starts at `i`. */
  function DigitEnd(s: string, i: nat): (j: nat)
    requires i <= |s|
    ensures i <= j <= |s|
    decreases |s| - i
  {
    if i < |s| && IsAsciiDigit(s[i]) then DigitEnd(s, i + 1) else i
  }

  /** The number of ASCII digits `s` starts with. */
  function DigitRun(s: string): (n: nat)
    ensures n <= |s|
  {
    DigitEnd(s, 0)
  }

  /** `DigitEnd` passes over digits only and stops at the first character that is not one. */
  lemma {:induction false} DigitEndIsRun(s: string, i: nat)
    requires i <= |s|
    ensures forall k :: i <= k < DigitEnd(s, i) ==> IsAsciiDigit(s[k])
    ensures DigitEnd(s, i) < |s| ==> !IsAsciiDigit(s[DigitEnd(s, i)])
    decreases |s| - i
  {
    if i < |s| && IsAsciiDigit(s[i]) {
      DigitEndIsRun(s, i + 1);
    }
  }

  /** `DigitRun` counts exactly the leading digits. */
  lemma DigitRunIsRun(s: string)
    ensures forall k :: 0 <= k < DigitRun(s) ==> IsAsciiDigit(s[k])
    ensures DigitRun(s) < |s| ==> !IsAsciiDigit(s[DigitRun(s)])
  {
    DigitEndIsRun(s, 0);
  }

  /** A run of digits from `i` up to a non-digit (or the end) at `j` is where `DigitEnd` stops. */
  lemma {:induction false} DigitEndTo(s: string, i: nat, j: nat)
    requires i <= j <= |s|
    requires forall k :: i <= k < j ==> IsAsciiDigit(s[k])
    requires j == |s| || !IsAsciiDigit(s[j])
    ensures DigitEnd(s, i) == j
    decreases j - i
  {
    if i < j {
      DigitEndTo(s, i + 1, j);
    }
  }

  /** `/^\d+\./.test(s)`: one or more ASCII digits, then a full stop. */
  predicate StartsNumbered(s: string) {
    var n := DigitRun(s);
    0 < n < |s| && s[n] == '.'
  }

  /** `Trim` returns a contiguous piece of its argument. */
  lemma TrimIsSlice(s: string) returns (a: nat)
    ensures a + |Trim(s)| <= |s| && Trim(s) == s[a..a + |Trim(s)|]
  {
    a := TrimBounds(s).0;
  }

  /** Trimming cannot introduce a character. */
  lemma TrimKeepsAbsence(s: string, c: char)
    requires c !in s
    ensures c !in Trim(s)
  {
    var a := TrimIsSlice(s);
    var r := Trim(s);
    forall k | 0 <= k < |r| ensures r[k] != c {
      assert r[k] == s[a + k];
    }
  }

  /** No piece of `s.split(c)` contains the separator character. */
  lemma {:induction false} SplitAvoidsSeparator(s: string, c: char)
    ensures forall k :: 0 <= k < |Split(s, [c])| ==> c !in Split(s, [c])[k]
    decreases |s|
  {
    IndexOfFromFinds(s, [c], 0);
    match IndexOf(s, [c])
    case None =>
      forall j | 0 <= j < |s| ensures s[j] != c {
        assert !OccursAt(s, [c], j);
        MatchesUpToAgrees(s, [c], j, 1);
      }
    case Some(i) =>
      SplitAvoidsSeparator(s[i + 1..], c);
      forall j | 0 <= j < i ensures s[..i][j] != c {
        assert !OccursAt(s, [c], j);
        MatchesUpToAgrees(s, [c], j, 1);
      }
  }

  /** Appending a trimmed, non-empty piece to a trimmed accumulator keeps it trimmed. */
  lemma AppendKeepsTrimmed(acc: string, sep: string, x: string)
    requires IsTrimmed(acc) && IsTrimmed(x) && x != ""
    ensures IsTrimmed(AppendWithSeparator(acc, sep, x))
  {
    var r := AppendWithSeparator(acc, sep, x);
    assert r[|r| - 1] == x[|x| - 1];
    if acc != "" { assert r[0] == acc[0]; } else { assert r[0] == x[0]; }
  }

  /** `s.replace(t, u)` with a string pattern: only the first occurrence is replaced. */
  function ReplaceFirst(s: string, t: string, u: string): string {
    match IndexOf(s, t)
    case None => s
    case Some(i) => s[..i] + u + s[i + |t|..]
  }

  /** Removing a prefix the string starts with drops exactly that prefix. */
  lemma ReplaceLeadingPrefix(s: string, t: string)
    requires t <= s
    ensures ReplaceFirst(s, t, "") == s[|t|..]
  {
    assert OccursAt(s, t, 0) by {
      OccursAtSlice(s, t, 0);
      assert s[0..|t|] == t;
    }
  }
}
