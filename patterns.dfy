/**
 * The few regular expressions the action-plan code applies, written out as
 * direct scans with the backtracking behaviour of JavaScript's engine:
 * a greedy `\s*(.+)` tail, a lazy `\*\*(.+?)\*\*` bold span, and the global
 * `https?:\/\/[^\s]+` link search.
 */
module Patterns {
  import opened Wrappers
  import opened Text

  predicate NoLineTerminator(s: string) {
    forall k :: 0 <= k < |s| ==> !IsLineTerminator(s[k])
  }

  /** The last position before `j` holding something other than a line terminator. */
  function LastNonTerminator(s: string, j: nat): (r: Option<nat>)
    requires j <= |s|
    ensures r.Some? ==> r.value < j
  {
    if j == 0 then None
    else if !IsLineTerminator(s[j - 1]) then Some(j - 1)
    else LastNonTerminator(s, j - 1)
  }

  /** `LastNonTerminator` finds such a position, with only line terminators after it; without one, `s[..j]` is all terminators. */
  lemma {:induction false} LastNonTerminatorFinds(s: string, j: nat)
    requires j <= |s|
    ensures LastNonTerminator(s, j).Some? ==>
      && !IsLineTerminator(s[LastNonTerminator(s, j).value])
      && forall k :: LastNonTerminator(s, j).value < k < j ==> IsLineTerminator(s[k])
    ensures LastNonTerminator(s, j).None? ==> forall k :: 0 <= k < j ==> IsLineTerminator(s[k])
  {
    if 0 < j && IsLineTerminator(s[j - 1]) {
      LastNonTerminatorFinds(s, j - 1);
    }
  }

  /**
   * The group of `\s*(.+)` matched at the start of `t`. The greedy `\s*`
   * takes the leading white space; if nothing follows it, it gives back
   * characters until `.+` can take one that is not a line terminator.
   */
  function GreedyRestGroup(t: string): (g: Option<string>)
    ensures g.Some? ==> g.value != ""
  {
    TrimStartDropsWhite(t);
    LastNonTerminatorFinds(t, |t|);
    var u := TrimStart(t);
    if u != [] then
      Some(TakeLine(u))
    else
      match LastNonTerminator(t, |t|)
      case Some(k) => Some(TakeLine(t[k..]))
      case None => None
  }

  /** The rest-of-line group lies within one line. */
  lemma GreedyRestGroupOneLine(t: string)
    ensures GreedyRestGroup(t).Some? ==> NoLineTerminator(GreedyRestGroup(t).value)
  {
    GreedyRestGroupMatches(t);
  }

  /** The group holds no line terminator, and there is none exactly when `t` consists of line terminators. */
  lemma GreedyRestGroupMatches(t: string)
    ensures GreedyRestGroup(t).Some? ==> NoLineTerminator(GreedyRestGroup(t).value)
    ensures GreedyRestGroup(t).None? <==> forall k :: 0 <= k < |t| ==> IsLineTerminator(t[k])
  {
    TrimStartDropsWhite(t);
    LastNonTerminatorFinds(t, |t|);
    var u := TrimStart(t);
    if u != [] {
      TakeLineStops(u);
      assert t[|t| - |u|] == u[0];
    } else {
      match LastNonTerminator(t, |t|)
      case Some(k) => TakeLineStops(t[k..]);
      case None =>
    }
  }

  /**
   * The lazy `(.+?)` begun at `j` and followed by `**`: the least end from
   * the candidate `e` on at which `**` occurs, provided no line terminator
   * comes before it.
   */
  function LazyBoldEnd(s: string, j: nat, e: nat): (r: Option<nat>)
    requires j < e <= |s| + 1
    ensures r.Some? ==> e <= r.value && r.value + 2 <= |s|
    decreases |s| + 1 - e
  {
    if e > |s| then None
    else if IsLineTerminator(s[e - 1]) then None
    else if OccursAt(s, "**", e) then Some(e)
    else LazyBoldEnd(s, j, e + 1)
  }

  /** The end `LazyBoldEnd` finds is an occurrence of `**`, the first from `e` on, with no line terminator in the span. */
  lemma {:induction false} LazyBoldEndFinds(s: string, j: nat, e: nat)
    requires j < e <= |s| + 1
    requires forall k :: j <= k < e - 1 ==> !IsLineTerminator(s[k])
    ensures LazyBoldEnd(s, j, e).Some? ==> OccursAt(s, "**", LazyBoldEnd(s, j, e).value)
    ensures LazyBoldEnd(s, j, e).Some? ==> forall k :: j <= k < LazyBoldEnd(s, j, e).value ==> !IsLineTerminator(s[k])
    ensures LazyBoldEnd(s, j, e).Some? ==> forall m :: e <= m < LazyBoldEnd(s, j, e).value ==> !OccursAt(s, "**", m)
    decreases |s| + 1 - e
  {
    if e <= |s| && !IsLineTerminator(s[e - 1]) && !OccursAt(s, "**", e) {
      LazyBoldEndFinds(s, j, e + 1);
    }
  }

  /** The group of `\*\*(.+?)\*\*` when the match is anchored at `p`. */
  function BoldGroupAt(s: string, p: nat): (g: Option<string>)
    ensures g.Some? ==> g.value != ""
  {
    if OccursAt(s, "**", p) then
      match LazyBoldEnd(s, p + 2, p + 3)
      case Some(e) => Some(s[p + 2..e])
      case None => None
    else None
  }

  /** The group of the leftmost match of `\*\*(.+?)\*\*` at or after `p`. */
  function BoldGroupFrom(s: string, p: nat): (g: Option<string>)
    ensures g.Some? ==> g.value != ""
    decreases |s| - p
  {
    if p >= |s| then None
    else
      match BoldGroupAt(s, p)
      case Some(g) => Some(g)
      case None => BoldGroupFrom(s, p + 1)
  }

  /** A bold group lies within one line. */
  lemma BoldGroupAtOneLine(s: string, p: nat)
    ensures BoldGroupAt(s, p).Some? ==> NoLineTerminator(BoldGroupAt(s, p).value)
  {
    if OccursAt(s, "**", p) {
      LazyBoldEndFinds(s, p + 2, p + 3);
    }
  }

  /** The leftmost bold group lies within one line. */
  lemma {:induction false} BoldGroupFromOneLine(s: string, p: nat)
    ensures BoldGroupFrom(s, p).Some? ==> NoLineTerminator(BoldGroupFrom(s, p).value)
    decreases |s| - p
  {
    if p < |s| {
      BoldGroupAtOneLine(s, p);
      if BoldGroupAt(s, p).None? {
        BoldGroupFromOneLine(s, p + 1);
      }
    }
  }

  /**
   * A bold title survives being wrapped in `**` and read back by the lazy
   * pattern when no `**` starts inside it after its first character and,
   * being longer than one character, it does not end in `*`.
   */
  predicate BoldSafe(t: string) {
    && (forall m :: 1 <= m < |t| ==> !OccursAt(t, "**", m))
    && (|t| >= 2 ==> t[|t| - 1] != '*')
  }

  /** `**` occurs exactly where two stars follow each other. */
  lemma StarsAt(s: string, e: nat)
    ensures OccursAt(s, "**", e) <==> e + 2 <= |s| && s[e] == '*' && s[e + 1] == '*'
  {
    if e + 2 <= |s| {
      MatchesUpToAgrees(s, "**", e, 2);
    }
  }

  /** Wrapping a one-line, non-empty text in `**` always gives a bold match at the start. */
  lemma {:induction false} WrappedBoldFound(t: string, e: nat)
    requires t != "" && NoLineTerminator(t)
    requires 3 <= e <= 2 + |t|
    ensures LazyBoldEnd("**" + t + "**", 2, e).Some?
    decreases 2 + |t| - e
  {
    var s := "**" + t + "**";
    assert forall k :: 2 <= k < 2 + |t| ==> s[k] == t[k - 2];
    StarsAt(s, e);
    if e < 2 + |t| && !OccursAt(s, "**", e) {
      WrappedBoldFound(t, e + 1);
    }
  }

  /** For a bold-safe title, the lazy match stops exactly at the closing `**`. */
  lemma {:induction false} WrappedBoldExact(t: string, e: nat)
    requires t != "" && NoLineTerminator(t) && BoldSafe(t)
    requires 3 <= e <= 2 + |t|
    ensures LazyBoldEnd("**" + t + "**", 2, e) == Some(2 + |t|)
    decreases 2 + |t| - e
  {
    var s := "**" + t + "**";
    assert forall k :: 2 <= k < 2 + |t| ==> s[k] == t[k - 2];
    assert s[e - 1] == t[e - 3];
    StarsAt(s, e);
    if e < 2 + |t| {
      if e + 2 <= 2 + |t| {
        assert !OccursAt(t, "**", e - 2);
        StarsAt(t, e - 2);
      } else {
        assert s[e] == t[|t| - 1];
      }
      WrappedBoldExact(t, e + 1);
    }
  }

  /** The bold group of a wrapped one-line text is found, and is the text itself when it is bold-safe. */
  lemma WrappedBoldGroup(t: string)
    requires t != "" && NoLineTerminator(t)
    ensures BoldGroupFrom("**" + t + "**", 0).Some?
    ensures BoldSafe(t) ==> BoldGroupFrom("**" + t + "**", 0) == Some(t)
  {
    var s := "**" + t + "**";
    StarsAt(s, 0);
    assert forall k :: 2 <= k < 2 + |t| ==> s[k] == t[k - 2];
    if |t| == 1 {
      StarsAt(s, 3);
      assert LazyBoldEnd(s, 2, 3) == Some(3);
      assert s[2..3] == t;
    } else {
      WrappedBoldFound(t, 3);
      if BoldSafe(t) {
        WrappedBoldExact(t, 3);
        assert s[2..2 + |t|] == t;
      }
    }
  }

  /** A title ending in `*` loses that star when read back: `**a***` yields `a`. */
  lemma WrappedBoldDropsTrailingStar()
    ensures BoldGroupFrom("**" + "a*" + "**", 0) == Some("a")
  {
    var s := "**" + "a*" + "**";
    StarsAt(s, 0);
    StarsAt(s, 3);
    assert LazyBoldEnd(s, 2, 3) == Some(3);
    assert s[2..3] == "a";
  }

  /** The end of the run of characters other than white space that starts at `i`. */
  function NonWhiteEnd(s: string, i: nat): (j: nat)
    requires i <= |s|
    ensures i <= j <= |s|
    decreases |s| - i
  {
    if i < |s| && !IsWhite(s[i]) then NonWhiteEnd(s, i + 1) else i
  }

  /** `NonWhiteEnd` passes over characters other than white space and stops at the first white one. */
  lemma {:induction false} NonWhiteEndStops(s: string, i: nat)
    requires i <= |s|
    ensures forall k :: i <= k < NonWhiteEnd(s, i) ==> !IsWhite(s[k])
    ensures NonWhiteEnd(s, i) < |s| ==> IsWhite(s[NonWhiteEnd(s, i)])
    decreases |s| - i
  {
    if i < |s| && !IsWhite(s[i]) {
      NonWhiteEndStops(s, i + 1);
    }
  }

  /** The length of a match of `https?:\/\/[^\s]+` at `p`, if one starts there. */
  function UrlAt(s: string, p: nat): (n: Option<nat>)
    ensures n.Some? ==> 0 < n.value && p + n.value <= |s|
  {
    var scheme := if OccursAt(s, "https://", p) then 8 else if OccursAt(s, "http://", p) then 7 else 0;
    if scheme == 0 then None
    else
      var run := NonWhiteEnd(s, p + scheme) - (p + scheme);
      if run == 0 then None else Some(scheme + run)
  }

  /** A link: starts with `http` and holds no white space. */
  predicate IsLink(u: string) {
    "http" <= u && forall k :: 0 <= k < |u| ==> !IsWhite(u[k])
  }

  /** What `UrlAt` matches is a link. */
  lemma UrlAtIsLink(s: string, p: nat)
    ensures UrlAt(s, p).Some? ==> IsLink(s[p..p + UrlAt(s, p).value])
  {
    var scheme := if OccursAt(s, "https://", p) then 8 else if OccursAt(s, "http://", p) then 7 else 0;
    if scheme != 0 && UrlAt(s, p).Some? {
      NonWhiteEndStops(s, p + scheme);
      var n := UrlAt(s, p).value;
      var prefix := if scheme == 8 then "https://" else "http://";
      MatchesUpToAgrees(s, prefix, p, scheme);
      assert prefix[..4] == "http";
      assert forall m :: 0 <= m < 4 ==> s[p..p + n][m] == s[p + m] == prefix[m];
      assert s[p..p + n][..4] == "http";
    }
  }

  /** `s.match(/https?:\/\/[^\s]+/g)` from position `p` on, as a possibly empty list. */
  function UrlsFrom(s: string, p: nat): seq<string>
    decreases |s| - p
  {
    if p >= |s| then []
    else
      match UrlAt(s, p)
      case Some(n) => [s[p..p + n]] + UrlsFrom(s, p + n)
      case None => UrlsFrom(s, p + 1)
  }

  /** Every match `UrlsFrom` collects is a link. */
  lemma {:induction false} UrlsFromAreLinks(s: string, p: nat)
    ensures forall k :: 0 <= k < |UrlsFrom(s, p)| ==> IsLink(UrlsFrom(s, p)[k])
    decreases |s| - p
  {
    if p < |s| {
      UrlAtIsLink(s, p);
      match UrlAt(s, p)
      case Some(n) => UrlsFromAreLinks(s, p + n);
      case None => UrlsFromAreLinks(s, p + 1);
    }
  }
}
