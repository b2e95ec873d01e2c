/**
 * The analysis-text splitter of the HubSpot AI analysis panel. The model's
 * markdown answer is cut into sections at `###` headings; each section is
 * classified by the first keyword it mentions and titled by its first
 * non-blank line, and its remaining lines are cut into `####` subsections
 * whose `- **name**: text` bullets become items. Recommendation sections are
 * read again as categories of numbered recommendations.
 */
module AiAnalysis {
  import opened Wrappers
  import opened Text
  import opened Seqs

  // ---------------------------------------------------------------------
  // Split patterns
  // ---------------------------------------------------------------------

  /** `###` followed by white space starts at `p`. */
  predicate HeadingAt(s: string, p: nat) {
    p + 3 < |s| && s[p] == '#' && s[p + 1] == '#' && s[p + 2] == '#' && IsWhite(s[p + 3])
  }

  /** `####` followed by white space starts at `p`. */
  predicate SubheadingAt(s: string, p: nat) {
    p < |s| && s[p] == '#' && HeadingAt(s, p + 1)
  }

  predicate NoHeading(s: string) {
    forall p :: 0 <= p < |s| ==> !HeadingAt(s, p)
  }

  predicate NoSubheading(s: string) {
    forall p :: 0 <= p < |s| ==> !SubheadingAt(s, p)
  }

  /**
   * The regular expressions the text is split on: the section pattern
   * `###\s+\d+\.\s+|###\s+` as written, the same pattern kept from matching
   * the last three marks of a longer run of `#`, and the subsection
   * pattern `####\s+`.
   */
  datatype Pattern = SectionPattern | GuardedSectionPattern | SubsectionPattern

  /**
   * Where the section pattern matched at a heading ends. Both `\s+` and
   * `\d+` can only stop at the end of their runs, so the first alternative
   * matches exactly when digits, a full stop and white space follow the
   * first run of white space; otherwise the second alternative takes that run.
   */
  function SectionMatchEnd(s: string, p: nat): (e: nat)
    requires HeadingAt(s, p)
    ensures p + 4 <= e <= |s|
  {
    var w := SkipWhite(s, p + 3);
    var d := DigitEnd(s, w);
    if w < d && d + 1 < |s| && s[d] == '.' && IsWhite(s[d + 1]) then SkipWhite(s, d + 1) else w
  }

  /** The end of the match of `pat` that starts at `p`, if one does. */
  function MatchAt(pat: Pattern, s: string, p: nat): (e: Option<nat>)
    ensures e.Some? ==> p < e.value <= |s|
  {
    match pat
    case SectionPattern =>
      if HeadingAt(s, p) then Some(SectionMatchEnd(s, p)) else None
    case GuardedSectionPattern =>
      if HeadingAt(s, p) && (p == 0 || s[p - 1] != '#') then Some(SectionMatchEnd(s, p)) else None
    case SubsectionPattern =>
      if SubheadingAt(s, p) then Some(SkipWhite(s, p + 5)) else None
  }

  /** The leftmost position at or after `from` where `pat` matches. */
  function NextMatch(pat: Pattern, s: string, from: nat): (r: Option<nat>)
    requires from <= |s|
    ensures r.Some? ==> from <= r.value < |s| && MatchAt(pat, s, r.value).Some?
    decreases |s| - from
  {
    if from == |s| then None
    else if MatchAt(pat, s, from).Some? then Some(from)
    else NextMatch(pat, s, from + 1)
  }

  /** No match of `pat` starts between `from` and the one `NextMatch` finds. */
  lemma {:induction false} NextMatchIsFirst(pat: Pattern, s: string, from: nat)
    requires from <= |s|
    ensures forall p :: from <= p < |s| && (NextMatch(pat, s, from).None? || p < NextMatch(pat, s, from).value) ==> MatchAt(pat, s, p).None?
    decreases |s| - from
  {
    if from < |s| && MatchAt(pat, s, from).None? {
      NextMatchIsFirst(pat, s, from + 1);
    }
  }

  /** `s.slice(from).split(pat)`: the stretches between successive leftmost matches. */
  function SplitFrom(pat: Pattern, s: string, from: nat): (parts: seq<string>)
    requires from <= |s|
    ensures parts != []
    decreases |s| - from
  {
    match NextMatch(pat, s, from)
    case None => [s[from..]]
    case Some(p) => [s[from..p]] + SplitFrom(pat, s, MatchAt(pat, s, p).value)
  }

  function SplitBy(pat: Pattern, s: string): seq<string> {
    SplitFrom(pat, s, 0)
  }

  /** Text the pattern never matches in is not split. */
  lemma {:induction false} NoMatchNoSplit(pat: Pattern, s: string, from: nat)
    requires from <= |s|
    requires forall p :: from <= p < |s| ==> MatchAt(pat, s, p).None?
    ensures SplitFrom(pat, s, from) == [s[from..]]
    decreases |s| - from
  {
    if from < |s| {
      NoMatchNoSplit(pat, s, from + 1);
    }
  }

  /** A stretch of `s` in which the section pattern never matches holds no heading. */
  lemma NoHeadingBetween(s: string, a: nat, b: nat)
    requires a <= b <= |s|
    requires forall p :: a <= p < b ==> MatchAt(SectionPattern, s, p).None?
    ensures NoHeading(s[a..b])
  {
    forall q | 0 <= q < b - a
      ensures !HeadingAt(s[a..b], q)
    {
      assert MatchAt(SectionPattern, s, a + q).None?;
    }
  }

  /** No part of a split on the section pattern holds `###` followed by white space. */
  lemma {:induction false} SectionPartsHaveNoHeading(s: string, from: nat)
    requires from <= |s|
    ensures forall k :: 0 <= k < |SplitFrom(SectionPattern, s, from)| ==> NoHeading(SplitFrom(SectionPattern, s, from)[k])
    decreases |s| - from
  {
    NextMatchIsFirst(SectionPattern, s, from);
    var parts := SplitFrom(SectionPattern, s, from);
    match NextMatch(SectionPattern, s, from)
    case None =>
      NoHeadingBetween(s, from, |s|);
      assert s[from..|s|] == s[from..];
    case Some(p) =>
      NoHeadingBetween(s, from, p);
      var e := MatchAt(SectionPattern, s, p).value;
      SectionPartsHaveNoHeading(s, e);
      assert parts == [s[from..p]] + SplitFrom(SectionPattern, s, e);
  }

  /** Text without a heading has no subheading either: `####` plus white space ends in `###` plus white space. */
  lemma NoHeadingNoSubheading(s: string)
    requires NoHeading(s)
    ensures NoSubheading(s)
  {
    forall p | 0 <= p < |s|
      ensures !SubheadingAt(s, p)
    {
      if p + 1 < |s| {
        assert !HeadingAt(s, p + 1);
      }
    }
  }

  /** The characters the section pattern consumes after its `###`: white space, digits and a full stop. */
  lemma SectionMatchChars(s: string, p: nat)
    requires HeadingAt(s, p)
    ensures forall k :: p + 3 <= k < SectionMatchEnd(s, p) ==> IsWhite(s[k]) || IsAsciiDigit(s[k]) || s[k] == '.'
  {
    var w := SkipWhite(s, p + 3);
    SkipWhiteSkips(s, p + 3);
    DigitEndIsRun(s, w);
    var d := DigitEnd(s, w);
    if w < d && d + 1 < |s| && s[d] == '.' && IsWhite(s[d + 1]) {
      SkipWhiteSkips(s, d + 1);
    }
  }

  /** A section match that starts before a `####` heading ends before it. */
  lemma SectionMatchStopsBeforeSubheading(s: string, p: nat, j: nat)
    requires p < j && HeadingAt(s, p) && SubheadingAt(s, j)
    ensures SectionMatchEnd(s, p) <= j
  {
    SectionMatchChars(s, p);
    assert s[j] == '#' && s[j + 1] == '#' && s[j + 2] == '#';
  }

  /** The guarded pattern matches nowhere inside a `####` heading or at the white space after it. */
  lemma GuardedSkipsSubheading(s: string, j: nat)
    requires SubheadingAt(s, j)
    ensures forall p :: j <= p <= j + 4 ==> MatchAt(GuardedSectionPattern, s, p).None?
  {
  }

  /** A `####` heading that lies wholly inside `s[a..b]` is one there too. */
  lemma SubheadingInSlice(s: string, a: nat, b: nat, j: nat)
    requires a <= j && j + 4 < b <= |s| && SubheadingAt(s, j)
    ensures SubheadingAt(s[a..b], j - a)
  {
    var t := s[a..b];
    assert t[j - a] == s[j] && t[j - a + 1] == s[j + 1] && t[j - a + 2] == s[j + 2];
    assert t[j - a + 3] == s[j + 3] && t[j - a + 4] == s[j + 4];
  }

  /**
   * The first part of a split from `from` runs up to `p`, the first match
   * or the end of the text; when a match is there, the other parts are
   * those of the split from the end of that match.
   */
  lemma SplitFromHead(pat: Pattern, s: string, from: nat) returns (p: nat)
    requires from <= |s|
    ensures from <= p <= |s| && SplitFrom(pat, s, from)[0] == s[from..p]
    ensures p < |s| ==> MatchAt(pat, s, p).Some? && SplitFrom(pat, s, from)[1..] == SplitFrom(pat, s, MatchAt(pat, s, p).value)
  {
    match NextMatch(pat, s, from)
    case None =>
      p := |s|;
    case Some(m) =>
      p := m;
  }

  /** A match of the guarded pattern lies before a `####` heading or after its first white space. */
  lemma GuardedMatchAvoidsSubheading(s: string, p: nat, j: nat)
    requires SubheadingAt(s, j) && MatchAt(GuardedSectionPattern, s, p).Some?
    ensures p < j || j + 4 < p
  {
    GuardedSkipsSubheading(s, j);
  }

  /**
   * Split on the guarded pattern, a `####` heading at or after `from`
   * survives whole into one part, at offset `q` of part `k`.
   */
  lemma {:induction false} GuardedSplitKeepsSubheading(s: string, from: nat, j: nat) returns (k: nat, q: nat)
    requires from <= j && SubheadingAt(s, j)
    ensures k < |SplitFrom(GuardedSectionPattern, s, from)|
    ensures SubheadingAt(SplitFrom(GuardedSectionPattern, s, from)[k], q)
    decreases |s| - from
  {
    var p := SplitFromHead(GuardedSectionPattern, s, from);
    if p < |s| {
      GuardedMatchAvoidsSubheading(s, p, j);
    }
    if j < p {
      k, q := 0, j - from;
      SubheadingInSlice(s, from, p, j);
    } else {
      var e := MatchAt(GuardedSectionPattern, s, p).value;
      SectionMatchStopsBeforeSubheading(s, p, j);
      var k', q' := GuardedSplitKeepsSubheading(s, e, j);
      k, q := k' + 1, q';
      assert SplitFrom(GuardedSectionPattern, s, from)[k] == SplitFrom(GuardedSectionPattern, s, e)[k'];
    }
  }

  // ---------------------------------------------------------------------
  // Lines
  // ---------------------------------------------------------------------

  /** `line => line.trim()` as a filter test. */
  function NonBlank(): string -> bool {
    line => Trim(line) != ""
  }

  /** `s.split('\n').filter(line => line.trim())` */
  function NonBlankLines(s: string): seq<string> {
    Filter(NonBlank(), Split(s, "\n"))
  }

  /** The kept lines are non-blank and hold no `\n`. */
  lemma NonBlankLinesAreLines(s: string)
    ensures forall k :: 0 <= k < |NonBlankLines(s)| ==> Trim(NonBlankLines(s)[k]) != "" && '\n' !in NonBlankLines(s)[k]
  {
    var pieces := Split(s, "\n");
    assert "\n" == ['\n'];
    SplitAvoidsSeparator(s, '\n');
    forall x | x in NonBlankLines(s)
      ensures Trim(x) != "" && '\n' !in x
    {
      FilterMembers(NonBlank(), pieces, x);
    }
  }

  /** `xs.slice(1)` */
  function Tail<T>(xs: seq<T>): (r: seq<T>)
    ensures |r| == if |xs| == 0 then 0 else |xs| - 1
  {
    if |xs| == 0 then [] else xs[1..]
  }

  /** Lines of which none holds a heading, and none but the last one a heading once its `\n` is put back. */
  predicate HeadingFreeLines(ls: seq<string>) {
    forall k :: 0 <= k < |ls| ==> NoHeading(ls[k]) && (k + 1 < |ls| ==> NoHeading(ls[k] + "\n"))
  }

  lemma NoHeadingSlice(s: string, a: nat, b: nat)
    requires NoHeading(s) && a <= b <= |s|
    ensures NoHeading(s[a..b])
  {
    forall q | 0 <= q < b - a
      ensures !HeadingAt(s[a..b], q)
    {
      assert !HeadingAt(s, a + q);
    }
  }

  /** The lines of a text without a heading are heading-free. */
  lemma {:induction false} SplitLinesHeadingFree(s: string)
    requires NoHeading(s)
    ensures HeadingFreeLines(Split(s, "\n"))
    decreases |s|
  {
    match IndexOf(s, "\n")
    case None =>
    case Some(i) =>
      IndexOfFromFinds(s, "\n", 0);
      OccursAtSlice(s, "\n", i);
      assert s[..i] + "\n" == s[..i + 1];
      NoHeadingSlice(s, 0, i);
      NoHeadingSlice(s, 0, i + 1);
      NoHeadingSlice(s, i + 1, |s|);
      assert s[i + 1..|s|] == s[i + 1..];
      SplitLinesHeadingFree(s[i + 1..]);
      var rest := Split(s[i + 1..], "\n");
      assert Split(s, "\n") == [s[..i]] + rest;
  }

  /** Dropping lines keeps them heading-free. */
  lemma {:induction false} FilterHeadingFree(p: string -> bool, ls: seq<string>)
    requires HeadingFreeLines(ls)
    ensures HeadingFreeLines(Filter(p, ls))
    decreases |ls|
  {
    if |ls| > 0 {
      FilterHeadingFree(p, ls[1..]);
      var rest := Filter(p, ls[1..]);
      if p(ls[0]) {
        assert Filter(p, ls) == [ls[0]] + rest;
      } else {
        assert Filter(p, ls) == rest;
      }
    }
  }

  /** Gluing a heading-free line and its `\n` in front of subheading-free text makes no subheading. */
  lemma AppendLineNoSubheading(a: string, b: string)
    requires |a| > 0 && a[|a| - 1] == '\n'
    requires NoHeading(a) && NoSubheading(b)
    ensures NoSubheading(a + b)
  {
    var t := a + b;
    forall p | 0 <= p < |t|
      ensures !SubheadingAt(t, p)
    {
      if p + 5 <= |a| {
        assert !HeadingAt(a, p + 1);
      } else if p < |a| {
        assert t[|a| - 1] == '\n';
      } else {
        assert !SubheadingAt(b, p - |a|);
      }
    }
  }

  /** Heading-free lines joined by `\n` hold no subheading. */
  lemma {:induction false} JoinHeadingFreeLines(ls: seq<string>)
    requires HeadingFreeLines(ls)
    ensures NoSubheading(Join(ls, "\n"))
    decreases |ls|
  {
    if |ls| == 1 {
      NoHeadingNoSubheading(ls[0]);
    } else if |ls| > 1 {
      JoinHeadingFreeLines(ls[1..]);
      AppendLineNoSubheading(ls[0] + "\n", Join(ls[1..], "\n"));
    }
  }

  // ---------------------------------------------------------------------
  // Classification
  // ---------------------------------------------------------------------

  datatype Kind = Overview | Metrics | Recommendations

  /** The icon shown beside a section, by the name of its component. */
  datatype Icon = Users | TrendingUp | Building2 | Activity | UserCheck | Lightbulb | Star

  /**
   * The tests of the `lowerPart.includes(...)` chain in source order: a
   * section that mentions either phrase of a row gets its icon and kind.
   */
  const Tests: seq<(string, string, Icon, Kind)> := [
    ("contact distribution", "distribution", Users, Metrics),
    ("growth trends", "trends", TrendingUp, Metrics),
    ("company insights", "company", Building2, Metrics),
    ("engagement patterns", "engagement", Activity, Metrics),
    ("lead quality", "quality", UserCheck, Metrics),
    ("recommendations", "actionable", Lightbulb, Recommendations)
  ]

  /** The icon and kind of the first row of `tests` whose phrases `lower` mentions; an overview when none. */
  function FirstTest(lower: string, tests: seq<(string, string, Icon, Kind)>): (Icon, Kind) {
    if |tests| == 0 then (Star, Overview)
    else if Contains(lower, tests[0].0) || Contains(lower, tests[0].1) then (tests[0].2, tests[0].3)
    else FirstTest(lower, tests[1..])
  }

  /** A part's icon and kind, tested on its lower-cased text. */
  function Classify(part: string): (Icon, Kind) {
    FirstTest(ToLower(part), Tests)
  }

  /** The first row that passes decides. */
  lemma {:induction false} FirstTestWins(lower: string, tests: seq<(string, string, Icon, Kind)>, k: nat)
    requires k < |tests| && (Contains(lower, tests[k].0) || Contains(lower, tests[k].1))
    requires forall j :: 0 <= j < k ==> !Contains(lower, tests[j].0) && !Contains(lower, tests[j].1)
    ensures FirstTest(lower, tests) == (tests[k].2, tests[k].3)
  {
    if k > 0 {
      FirstTestWins(lower, tests[1..], k - 1);
    }
  }

  /** No row passing makes an overview. */
  lemma {:induction false} NoTestIsOverview(lower: string, tests: seq<(string, string, Icon, Kind)>)
    requires forall j :: 0 <= j < |tests| ==> !Contains(lower, tests[j].0) && !Contains(lower, tests[j].1)
    ensures FirstTest(lower, tests) == (Star, Overview)
  {
    if |tests| > 0 {
      NoTestIsOverview(lower, tests[1..]);
    }
  }

  /** The keywords that decide a section's class, in the order they are tried. */
  const Keywords: seq<(string, Icon, Kind)> := [
    ("distribution", Users, Metrics),
    ("trends", TrendingUp, Metrics),
    ("company", Building2, Metrics),
    ("engagement", Activity, Metrics),
    ("quality", UserCheck, Metrics),
    ("recommendations", Lightbulb, Recommendations),
    ("actionable", Lightbulb, Recommendations)
  ]

  /** The class of the first keyword of `table` that `lower` mentions; an overview when it mentions none. */
  function FirstKeyword(lower: string, table: seq<(string, Icon, Kind)>): (Icon, Kind) {
    if |table| == 0 then (Star, Overview)
    else if Contains(lower, table[0].0) then (table[0].1, table[0].2)
    else FirstKeyword(lower, table[1..])
  }

  /** The earliest keyword mentioned decides, whatever later ones are mentioned too. */
  lemma {:induction false} FirstKeywordWins(lower: string, table: seq<(string, Icon, Kind)>, k: nat)
    requires k < |table| && Contains(lower, table[k].0)
    requires forall j :: 0 <= j < k ==> !Contains(lower, table[j].0)
    ensures FirstKeyword(lower, table) == (table[k].1, table[k].2)
  {
    if k > 0 {
      FirstKeywordWins(lower, table[1..], k - 1);
    }
  }

  /** Mentioning no keyword makes an overview. */
  lemma {:induction false} NoKeywordIsOverview(lower: string, table: seq<(string, Icon, Kind)>)
    requires forall j :: 0 <= j < |table| ==> !Contains(lower, table[j].0)
    ensures FirstKeyword(lower, table) == (Star, Overview)
  {
    if |table| > 0 {
      NoKeywordIsOverview(lower, table[1..]);
    }
  }

  /** A text that mentions a phrase mentions every ending of it. */
  lemma ContainsEnding(s: string, a: string, n: nat)
    requires n <= |a|
    ensures Contains(s, a) ==> Contains(s, a[n..])
  {
    if Contains(s, a) {
      IndexOfFromFinds(s, a, 0);
      var i := IndexOf(s, a).value;
      OccursAtSlice(s, a, i);
      OccursAtSlice(s, a[n..], i + n);
      assert s[i + n..i + |a|] == a[n..];
      IndexOfFromFinds(s, a[n..], 0);
    }
  }

  /** A row whose phrase holds its word classifies like that word alone. */
  lemma RowAsKeyword(lower: string, row: (string, string, Icon, Kind), tests: seq<(string, string, Icon, Kind)>, table: seq<(string, Icon, Kind)>)
    requires Contains(lower, row.0) ==> Contains(lower, row.1)
    requires FirstTest(lower, tests) == FirstKeyword(lower, table)
    ensures FirstTest(lower, [row] + tests) == FirstKeyword(lower, [(row.1, row.2, row.3)] + table)
  {
    assert ([row] + tests)[1..] == tests;
    assert ([(row.1, row.2, row.3)] + table)[1..] == table;
  }

  /** The last row tests two keywords of its own. */
  lemma LastRowAsKeywords(lower: string)
    ensures FirstTest(lower, Tests[5..]) == FirstKeyword(lower, Keywords[5..])
  {
    var t := Tests[5..];
    var k := Keywords[5..];
    assert t == [("recommendations", "actionable", Lightbulb, Recommendations)];
    assert k == [("recommendations", Lightbulb, Recommendations), ("actionable", Lightbulb, Recommendations)];
    assert FirstTest(lower, t[1..]) == (Star, Overview);
    assert FirstKeyword(lower, k[1..][1..]) == (Star, Overview);
  }

  /** In every row but the last the phrase ends or starts with the word, so mentioning it mentions the word. */
  lemma PhraseHoldsWord(lower: string, n: nat)
    requires n < 5
    ensures Contains(lower, Tests[n].0) ==> Contains(lower, Tests[n].1)
  {
    if n == 0 {
      ContainsEnding(lower, "contact distribution", 8);
      assert "contact distribution"[8..] == "distribution";
    } else if n == 1 {
      ContainsEnding(lower, "growth trends", 7);
      assert "growth trends"[7..] == "trends";
    } else if n == 2 {
      CompanyInsightsMentionsCompany(lower);
    } else if n == 3 {
      EngagementPatternsMentionsEngagement(lower);
    } else {
      ContainsEnding(lower, "lead quality", 5);
      assert "lead quality"[5..] == "quality";
    }
  }

  /** Every keyword but the last is the word of the row at the same position. */
  lemma KeywordFollowsRow(n: nat)
    requires n < 5
    ensures Keywords[n] == (Tests[n].1, Tests[n].2, Tests[n].3)
  {
  }

  /** From row `n` on, the phrase tests classify like the keywords from the same position. */
  lemma {:induction false} TestsFromRow(lower: string, n: nat)
    requires n <= 5
    ensures FirstTest(lower, Tests[n..]) == FirstKeyword(lower, Keywords[n..])
    decreases 5 - n
  {
    if n == 5 {
      LastRowAsKeywords(lower);
    } else {
      TestsFromRow(lower, n + 1);
      PhraseHoldsWord(lower, n);
      var t := Tests;
      var k := Keywords;
      KeywordFollowsRow(n);
      RowAsKeyword(lower, t[n], t[n + 1..], k[n + 1..]);
      assert [t[n]] + t[n + 1..] == t[n..];
      assert [k[n]] + k[n + 1..] == k[n..];
    }
  }

  /** The two-word phrases tested first change nothing: a section's class is that of the first keyword it mentions. */
  lemma ClassifyIsFirstKeyword(part: string)
    ensures Classify(part) == FirstKeyword(ToLower(part), Keywords)
  {
    TestsFromRow(ToLower(part), 0);
    assert Tests[0..] == Tests;
    assert Keywords[0..] == Keywords;
  }

  /** A text that mentions a phrase mentions every beginning of it. */
  lemma ContainsBeginning(s: string, a: string, n: nat)
    requires n <= |a|
    ensures Contains(s, a) ==> Contains(s, a[..n])
  {
    if Contains(s, a) {
      IndexOfFromFinds(s, a, 0);
      var i := IndexOf(s, a).value;
      OccursAtSlice(s, a, i);
      OccursAtSlice(s, a[..n], i);
      assert s[i..i + n] == a[..n];
      IndexOfFromFinds(s, a[..n], 0);
    }
  }

  lemma CompanyInsightsMentionsCompany(lower: string)
    ensures Contains(lower, "company insights") ==> Contains(lower, "company")
  {
    ContainsBeginning(lower, "company insights", 7);
    assert "company insights"[..7] == "company";
  }

  lemma EngagementPatternsMentionsEngagement(lower: string)
    ensures Contains(lower, "engagement patterns") ==> Contains(lower, "engagement")
  {
    ContainsBeginning(lower, "engagement patterns", 10);
    assert "engagement patterns"[..10] == "engagement";
  }

  // ---------------------------------------------------------------------
  // Titles
  // ---------------------------------------------------------------------

  /** `line.replace(...)` with the pattern `^\d+\.\s*`: leading digits, a full stop and the white space after it are dropped. */
  function StripNumbering(line: string): (r: string)
    ensures |r| <= |line| && r == line[|line| - |r|..]
  {
    if StartsNumbered(line) then line[SkipWhite(line, DigitRun(line) + 1)..] else line
  }

  /** A line with digits up to `n`, a full stop at `n` and white space up to `m` is numbered, and the numbering ends at `m`. */
  lemma NumberedUpTo(t: string, n: nat, m: nat)
    requires 0 < n < m <= |t| && t[n] == '.'
    requires forall i :: 0 <= i < n ==> IsAsciiDigit(t[i])
    requires forall k :: n + 1 <= k < m ==> IsWhite(t[k])
    requires m == |t| || !IsWhite(t[m])
    ensures StartsNumbered(t) && SkipWhite(t, DigitRun(t) + 1) == m
  {
    DigitEndTo(t, 0, n);
    SkipWhiteTo(t, n + 1, m);
  }

  /** Where the digits, the full stop, the white space and the rest of `d.wrest` lie. */
  lemma NumberedLayout(d: string, w: string, rest: string)
    requires forall i :: 0 <= i < |d| ==> IsAsciiDigit(d[i])
    requires AllWhite(w)
    requires rest == [] || !IsWhite(rest[0])
    ensures var t := d + "." + w + rest;
      && |t| == |d| + 1 + |w| + |rest| && t[|d|] == '.'
      && (forall i :: 0 <= i < |d| ==> IsAsciiDigit(t[i]))
      && (forall k :: |d| + 1 <= k < |d| + 1 + |w| ==> IsWhite(t[k]))
      && (|d| + 1 + |w| == |t| || !IsWhite(t[|d| + 1 + |w|]))
  {
    var t := d + "." + w + rest;
    forall i | 0 <= i < |d|
      ensures IsAsciiDigit(t[i])
    {
      assert t[i] == d[i];
    }
    forall k | |d| + 1 <= k < |d| + 1 + |w|
      ensures IsWhite(t[k])
    {
      assert t[k] == w[k - |d| - 1];
    }
    assert |d| + 1 + |w| < |t| ==> t[|d| + 1 + |w|] == rest[0];
  }

  /** Stripping the numbering from `N. rest` gives the rest. */
  lemma StripNumberingDropsNumber(d: string, w: string, rest: string)
    requires d != [] && forall i :: 0 <= i < |d| ==> IsAsciiDigit(d[i])
    requires AllWhite(w)
    requires rest == [] || !IsWhite(rest[0])
    ensures StripNumbering(d + "." + w + rest) == rest
  {
    var t := d + "." + w + rest;
    NumberedLayout(d, w, rest);
    NumberedUpTo(t, |d|, |d| + 1 + |w|);
    assert t[|d| + 1 + |w|..] == rest;
  }

  /** The first line stripped of its numbering and trimmed, or `Section k` for the part's 1-based index `k` when that is empty. */
  function SectionTitle(lines: seq<string>, index: nat): string {
    var t := if |lines| == 0 then "" else Trim(StripNumbering(lines[0]));
    if t == "" then "Section " + NatToString(index + 1) else t
  }

  /** The fallback title `Section k` is not empty and has no white space at either end. */
  lemma FallbackTitleIsTrimmed(index: nat)
    ensures IsTrimmed("Section " + NatToString(index + 1))
  {
    var n := NatToString(index + 1);
    var t := "Section " + n;
    assert t[0] == 'S';
    assert t[|t| - 1] == n[|n| - 1];
  }

  /** A section title is never empty and has no white space at either end. */
  lemma SectionTitleIsTrimmed(lines: seq<string>, index: nat)
    ensures SectionTitle(lines, index) != ""
    ensures IsTrimmed(SectionTitle(lines, index))
  {
    if |lines| > 0 {
      TrimTrims(StripNumbering(lines[0]));
    }
    FallbackTitleIsTrimmed(index);
  }

  /** `s.replace(/c/g, '')` for a one-character pattern `c`: every `c` removed, the rest kept in order. */
  function Without(s: string, c: char): (r: string)
    ensures c !in r && |r| <= |s|
  {
    if |s| == 0 then [] else (if s[0] == c then [] else [s[0]]) + Without(s[1..], c)
  }

  // ---------------------------------------------------------------------
  // Bullet items
  // ---------------------------------------------------------------------

  /** The lazy `.*?\*\*:` searched from `i`: the first `**:` before the line ends. */
  function CloseAt(s: string, i: nat): (r: Option<nat>)
    requires i <= |s|
    ensures r.Some? ==> i <= r.value && r.value + 3 <= |s|
    ensures r.Some? ==> s[r.value] == '*' && s[r.value + 1] == '*' && s[r.value + 2] == ':'
    decreases |s| - i
  {
    if i + 3 > |s| then None
    else if s[i] == '*' && s[i + 1] == '*' && s[i + 2] == ':' then Some(i)
    else if IsLineTerminator(s[i]) then None
    else CloseAt(s, i + 1)
  }

  /** No line ends between `i` and the `**:` that `CloseAt` finds. */
  lemma {:induction false} CloseAtStaysOnLine(s: string, i: nat)
    requires i <= |s|
    ensures CloseAt(s, i).Some? ==> forall k :: i <= k < CloseAt(s, i).value ==> !IsLineTerminator(s[k])
    decreases |s| - i
  {
    if i + 3 <= |s| && !(s[i] == '*' && s[i + 1] == '*' && s[i + 2] == ':') && !IsLineTerminator(s[i]) {
      CloseAtStaysOnLine(s, i + 1);
    }
  }

  /** `•`, the other bullet the item pattern accepts. */
  const Bullet: char := '\U{2022}'

  /**
   * A match of `[-•]\s*\*\*.*?\*\*:.*$` (multiline) starting at `p`: where
   * the text after the bullet starts, and where the line ends.
   */
  function ItemAt(s: string, p: nat): (r: Option<(nat, nat)>)
    requires p <= |s|
    ensures r.Some? ==> p < r.value.0 && r.value.0 + 5 <= r.value.1 <= |s|
  {
    if p < |s| && (s[p] == '-' || s[p] == Bullet) then
      var q := SkipWhite(s, p + 1);
      if q + 1 < |s| && s[q] == '*' && s[q + 1] == '*' then
        match CloseAt(s, q + 2)
        case Some(c) => Some((q, LineEnd(s, c + 3)))
        case None => None
      else None
    else None
  }

  /**
   * Every match of the item pattern from `p`, in order, with the bullet and
   * the white space after it removed and the rest trimmed; an empty list when
   * nothing matches.
   */
  function ItemsFrom(s: string, p: nat): seq<string>
    requires p <= |s|
    decreases |s| - p
  {
    if p == |s| then []
    else match ItemAt(s, p)
      case Some(m) => [Trim(s[m.0..m.1])] + ItemsFrom(s, m.1)
      case None => ItemsFrom(s, p + 1)
  }

  function Items(s: string): seq<string> {
    ItemsFrom(s, 0)
  }

  /** `**:` starts at `k`. */
  predicate NameEndsAt(x: string, k: nat) {
    k + 3 <= |x| && x[k] == '*' && x[k + 1] == '*' && x[k + 2] == ':'
  }

  /** One line that starts with a bold name followed by a colon: `**name**: text`. */
  predicate BoldNamed(x: string) {
    && |x| >= 5 && x[0] == '*' && x[1] == '*'
    && (exists k :: 2 <= k < |x| && NameEndsAt(x, k))
    && forall i :: 0 <= i < |x| ==> !IsLineTerminator(x[i])
  }

  /** A one-line text that starts with `**` and has `**:` after that stays bold-named once trimmed. */
  lemma TrimmedBoldNamed(t: string, k: nat)
    requires 2 <= k && NameEndsAt(t, k) && t[0] == '*' && t[1] == '*'
    requires forall i :: 0 <= i < |t| ==> !IsLineTerminator(t[i])
    ensures BoldNamed(Trim(t))
  {
    TrimBoundsTight(t);
    var b := TrimBounds(t);
    assert b.0 == 0;
    assert b.1 > k + 2;
    var x := Trim(t);
    assert x == t[..b.1];
    assert NameEndsAt(x, k);
    forall i | 0 <= i < |x|
      ensures !IsLineTerminator(x[i])
    {
      assert x[i] == t[i];
    }
  }

  /** Each item is a one-line `**name**: text`. */
  lemma ItemAtIsBoldNamed(s: string, p: nat)
    requires p <= |s| && ItemAt(s, p).Some?
    ensures BoldNamed(Trim(s[ItemAt(s, p).value.0..ItemAt(s, p).value.1]))
  {
    var q := SkipWhite(s, p + 1);
    var c := CloseAt(s, q + 2).value;
    var e := LineEnd(s, c + 3);
    assert ItemAt(s, p).value == (q, e);
    CloseAtStaysOnLine(s, q + 2);
    LineEndStops(s, c + 3);
    var t := s[q..e];
    forall i | 0 <= i < |t|
      ensures !IsLineTerminator(t[i])
    {
      assert t[i] == s[q + i];
    }
    assert NameEndsAt(t, c - q);
    TrimmedBoldNamed(t, c - q);
  }

  lemma {:induction false} ItemsFromAreBoldNamed(s: string, p: nat)
    requires p <= |s|
    ensures forall k :: 0 <= k < |ItemsFrom(s, p)| ==> BoldNamed(ItemsFrom(s, p)[k])
    decreases |s| - p
  {
    if p < |s| {
      match ItemAt(s, p)
      case Some(m) =>
        ItemAtIsBoldNamed(s, p);
        ItemsFromAreBoldNamed(s, m.1);
        assert ItemsFrom(s, p) == [Trim(s[m.0..m.1])] + ItemsFrom(s, m.1);
      case None =>
        ItemsFromAreBoldNamed(s, p + 1);
    }
  }

  /** A text that holds no bullet character yields no item. */
  lemma {:induction false} NoBulletNoItems(s: string, p: nat)
    requires p <= |s|
    requires forall i :: p <= i < |s| ==> s[i] != '-' && s[i] != Bullet
    ensures ItemsFrom(s, p) == []
    decreases |s| - p
  {
    if p < |s| {
      NoBulletNoItems(s, p + 1);
    }
  }

  // ---------------------------------------------------------------------
  // Sections and subsections
  // ---------------------------------------------------------------------

  datatype Subsection = Subsection(title: string, content: string, items: Option<seq<string>>)

  datatype Section = Section(title: string, icon: Icon, content: string, kind: Kind, subsections: Option<seq<Subsection>>)

  /** `xs.length > 0 ? xs : undefined` */
  function Optional<T>(xs: seq<T>): (r: Option<seq<T>>)
    ensures r.Some? <==> |xs| > 0
    ensures r.Some? ==> r.value == xs
  {
    if |xs| > 0 then Some(xs) else None
  }

  /** The subsection a piece of section content makes, when it has a non-blank line. */
  function SubsectionOf(piece: string): Option<Subsection> {
    var lines := NonBlankLines(piece);
    if |lines| == 0 then None
    else
      var content := Join(lines[1..], "\n");
      Some(Subsection(Trim(Without(lines[0], ':')), content, Optional(Items(content))))
  }

  /** `content.split(/####\s+/).filter(s => s.trim())` */
  function SubsectionPieces(content: string): seq<string> {
    Filter(NonBlank(), SplitBy(SubsectionPattern, content))
  }

  /** The results `build` gives the first `n` items and their indices, those that are `None` left out, in order. */
  function Collect<T>(items: seq<string>, n: nat, build: (string, nat) -> Option<T>): (r: seq<T>)
    requires n <= |items|
    ensures |r| <= n
  {
    if n == 0 then []
    else
      var prior := Collect(items, n - 1, build);
      match build(items[n - 1], n - 1)
      case Some(x) => prior + [x]
      case None => prior
  }

  /** The value an option holds, as a list of none or one. */
  function Listed<T>(x: Option<T>): (r: seq<T>)
    ensures |r| <= 1 && (x.Some? <==> |r| == 1) && (x.Some? ==> r[0] == x.value)
  {
    if x.Some? then [x.value] else []
  }

  /** The result for item `n`, when there is one, follows those of the items before it. */
  lemma CollectNext<T>(items: seq<string>, n: nat, build: (string, nat) -> Option<T>, x: Option<T>)
    requires n < |items| && x == build(items[n], n)
    ensures Collect(items, n + 1, build) == Collect(items, n, build) + Listed(x)
  {
  }

  /** Every collected result is what `build` gave some item `i`. */
  lemma {:induction false} CollectSource<T>(items: seq<string>, n: nat, build: (string, nat) -> Option<T>, k: nat) returns (i: nat)
    requires n <= |items| && k < |Collect(items, n, build)|
    ensures i < n && build(items[i], i) == Some(Collect(items, n, build)[k])
  {
    var prior := Collect(items, n - 1, build);
    if k < |prior| {
      i := CollectSource(items, n - 1, build, k);
    } else {
      i := n - 1;
    }
  }

  /** When `build` answers exactly for the items `keep` accepts, one result is collected per accepted item. */
  lemma {:induction false} CollectCount<T>(items: seq<string>, n: nat, build: (string, nat) -> Option<T>, keep: string -> bool)
    requires n <= |items|
    requires forall i :: 0 <= i < |items| ==> (build(items[i], i).Some? <==> keep(items[i]))
    ensures |Collect(items, n, build)| == |Filter(keep, items[..n])|
  {
    if n > 0 {
      CollectCount(items, n - 1, build, keep);
      assert items[..n] == items[..n - 1] + [items[n - 1]];
      FilterAppend(keep, items[..n - 1], [items[n - 1]]);
    }
  }

  /** The subsection a piece makes; its position does not matter. */
  function SubsectionAt(piece: string, index: nat): Option<Subsection> {
    SubsectionOf(piece)
  }

  function Subsections(content: string): seq<Subsection> {
    var pieces := SubsectionPieces(content);
    Collect(pieces, |pieces|, SubsectionAt)
  }

  /** The section one non-blank part makes; `index` counts every part, blank ones included. */
  function SectionOf(part: string, index: nat): Section {
    var lines := NonBlankLines(part);
    var content := Join(Tail(lines), "\n");
    var sort := Classify(part);
    Section(SectionTitle(lines, index), sort.0, content, sort.1, Optional(Subsections(content)))
  }

  /** A blank part makes no section. */
  function SectionAt(part: string, index: nat): Option<Section> {
    if Trim(part) == "" then None else Some(SectionOf(part, index))
  }

  function SectionsOf(parts: seq<string>): seq<Section> {
    Collect(parts, |parts|, SectionAt)
  }

  /** The sections `parseAnalysis` builds from the text, with the section split corrected. */
  function Analysis(text: string): seq<Section> {
    SectionsOf(SplitBy(GuardedSectionPattern, text))
  }

  /** The sections `parseAnalysis` builds from the text, with the section split as written. */
  function AnalysisAsWritten(text: string): seq<Section> {
    SectionsOf(SplitBy(SectionPattern, text))
  }

  /** The callback of the `subsectionMatches.forEach(...)` loop: a subsection for a piece with a non-blank line. */
  method ParsePiece(piece: string) returns (sub: Option<Subsection>)
    ensures sub == SubsectionOf(piece)
  {
    var subLines := NonBlankLines(piece);
    if |subLines| == 0 {
      return None;
    }
    var subTitle := Trim(Without(subLines[0], ':'));
    var subContent := Join(subLines[1..], "\n");
    var items := Items(subContent);
    sub := Some(Subsection(subTitle, subContent, Optional(items)));
  }

  /** The `subsectionMatches.forEach(...)` loop of `parseAnalysis`. */
  method ParseSubsections(content: string) returns (subsections: seq<Subsection>)
    ensures subsections == Subsections(content)
  {
    var pieces := SubsectionPieces(content);
    subsections := [];
    var i := 0;
    while i < |pieces|
      invariant 0 <= i <= |pieces|
      invariant subsections == Collect(pieces, i, SubsectionAt)
    {
      var sub := ParsePiece(pieces[i]);
      CollectNext(pieces, i, SubsectionAt, sub);
      subsections := subsections + Listed(sub);
      i := i + 1;
    }
  }

  /** The callback `parseAnalysis` runs on each part: nothing for a blank part, else its section. */
  method ParsePart(part: string, index: nat) returns (sec: Option<Section>)
    ensures sec == SectionAt(part, index)
  {
    if Trim(part) == "" {
      return None;
    }
    var sort := Classify(part);
    var lines := NonBlankLines(part);
    var title := SectionTitle(lines, index);
    var content := Join(Tail(lines), "\n");
    var subsections := ParseSubsections(content);
    sec := Some(Section(title, sort.0, content, sort.1, Optional(subsections)));
  }

  /** `parseAnalysis`, splitting sections with the corrected pattern. */
  method ParseAnalysis(text: string) returns (sections: seq<Section>)
    ensures sections == Analysis(text)
  {
    var parts := SplitBy(GuardedSectionPattern, text);
    sections := [];
    var index := 0;
    while index < |parts|
      invariant 0 <= index <= |parts|
      invariant sections == Collect(parts, index, SectionAt)
    {
      var sec := ParsePart(parts[index], index);
      CollectNext(parts, index, SectionAt, sec);
      sections := sections + Listed(sec);
      index := index + 1;
    }
  }

  /** A subsection is titled without colons, and its items, when present, are one or more bold-named lines. */
  predicate WellFormedSubsection(sub: Subsection) {
    && ':' !in sub.title
    && IsTrimmed(sub.title)
    && (sub.items.Some? ==> |sub.items.value| > 0 && forall k :: 0 <= k < |sub.items.value| ==> BoldNamed(sub.items.value[k]))
  }

  lemma SubsectionOfIsWellFormed(piece: string)
    ensures SubsectionOf(piece).Some? ==> WellFormedSubsection(SubsectionOf(piece).value)
  {
    var lines := NonBlankLines(piece);
    if |lines| > 0 {
      var content := Join(lines[1..], "\n");
      ItemsFromAreBoldNamed(content, 0);
      TrimKeepsAbsence(Without(lines[0], ':'), ':');
      TrimTrims(Without(lines[0], ':'));
    }
  }

  /** Every subsection of a section's content is well formed. */
  lemma SubsectionsAreWellFormed(content: string)
    ensures forall k :: 0 <= k < |Subsections(content)| ==> WellFormedSubsection(Subsections(content)[k])
  {
    var pieces := SubsectionPieces(content);
    forall k | 0 <= k < |Subsections(content)|
      ensures WellFormedSubsection(Subsections(content)[k])
    {
      var i := CollectSource(pieces, |pieces|, SubsectionAt, k);
      SubsectionOfIsWellFormed(pieces[i]);
    }
  }

  /** The icons that go with each kind: the bulb with recommendations, the star with the overview, the rest with metrics. */
  predicate Fits(icon: Icon, kind: Kind) {
    (kind == Recommendations <==> icon == Lightbulb) && (kind == Overview <==> icon == Star)
  }

  lemma {:induction false} FirstTestFits(lower: string, tests: seq<(string, string, Icon, Kind)>)
    requires forall j :: 0 <= j < |tests| ==> Fits(tests[j].2, tests[j].3)
    ensures Fits(FirstTest(lower, tests).0, FirstTest(lower, tests).1)
  {
    if |tests| > 0 {
      FirstTestFits(lower, tests[1..]);
    }
  }

  /** Every section gets the icon of its kind. */
  lemma ClassifyFits(part: string)
    ensures Fits(Classify(part).0, Classify(part).1)
  {
    var table := Tests;
    assert forall j :: 0 <= j < |table| ==> Fits(table[j].2, table[j].3);
    FirstTestFits(ToLower(part), table);
  }

  /**
   * A section has a non-empty trimmed title, its icon goes with its kind,
   * and its subsections, when present, are one or more well-formed ones.
   */
  predicate WellFormedSection(sec: Section) {
    && sec.title != "" && IsTrimmed(sec.title)
    && Fits(sec.icon, sec.kind)
    && (sec.subsections.Some? ==> |sec.subsections.value| > 0 && forall k :: 0 <= k < |sec.subsections.value| ==> WellFormedSubsection(sec.subsections.value[k]))
  }

  lemma SectionOfIsWellFormed(part: string, index: nat)
    ensures WellFormedSection(SectionOf(part, index))
  {
    var lines := NonBlankLines(part);
    SectionTitleIsTrimmed(lines, index);
    ClassifyFits(part);
    SubsectionsAreWellFormed(Join(Tail(lines), "\n"));
  }

  /** Every section `parseAnalysis` returns is well formed, and there is one per non-blank part of the split text. */
  lemma AnalysisIsWellFormed(text: string)
    ensures |Analysis(text)| == |Filter(NonBlank(), SplitBy(GuardedSectionPattern, text))|
    ensures forall k :: 0 <= k < |Analysis(text)| ==> WellFormedSection(Analysis(text)[k])
  {
    var parts := SplitBy(GuardedSectionPattern, text);
    CollectCount(parts, |parts|, SectionAt, NonBlank());
    assert parts[..|parts|] == parts;
    forall k | 0 <= k < |Analysis(text)|
      ensures WellFormedSection(Analysis(text)[k])
    {
      var i := CollectSource(parts, |parts|, SectionAt, k);
      SectionOfIsWellFormed(parts[i], i);
    }
  }

  /** Non-blank text without a heading is one section, classified on the whole text. */
  lemma HeadinglessTextIsOneSection(text: string)
    requires NoHeading(text) && Trim(text) != ""
    ensures |Analysis(text)| == 1
    ensures Analysis(text)[0].kind == Classify(text).1 && Analysis(text)[0].icon == Classify(text).0
  {
    forall p | 0 <= p < |text|
      ensures MatchAt(GuardedSectionPattern, text, p).None?
    {
      assert !HeadingAt(text, p);
    }
    NoMatchNoSplit(GuardedSectionPattern, text, 0);
    assert SplitBy(GuardedSectionPattern, text) == [text];
  }

  // ---------------------------------------------------------------------
  // What the split as written does to `####` headings
  // ---------------------------------------------------------------------

  /** The content of a section made from a part without headings has no subheading. */
  lemma HeadingFreePartContent(part: string, index: nat)
    requires NoHeading(part)
    ensures NoSubheading(SectionOf(part, index).content)
  {
    var lines := NonBlankLines(part);
    SplitLinesHeadingFree(part);
    FilterHeadingFree(NonBlank(), Split(part, "\n"));
    JoinHeadingFreeLines(Tail(lines));
  }

  /** Content without a subheading makes at most one subsection: itself, when it is not blank. */
  lemma UnsplitContentSubsections(content: string)
    requires NoSubheading(content)
    ensures |Subsections(content)| <= 1
  {
    forall p | 0 <= p < |content|
      ensures MatchAt(SubsectionPattern, content, p).None?
    {
      assert !SubheadingAt(content, p);
    }
    NoMatchNoSplit(SubsectionPattern, content, 0);
    assert SplitBy(SubsectionPattern, content) == [content];
  }

  /**
   * As written, the section pattern also matches the last three marks of
   * every `####` heading, so no part keeps one: no section's content holds
   * a subheading, and no section has more than one subsection.
   */
  lemma AsWrittenNeverSplitsSubsections(text: string)
    ensures forall k :: 0 <= k < |SplitBy(SectionPattern, text)| ==> NoSubheading(SplitBy(SectionPattern, text)[k])
    ensures forall k :: 0 <= k < |AnalysisAsWritten(text)| ==>
      NoSubheading(AnalysisAsWritten(text)[k].content) && (AnalysisAsWritten(text)[k].subsections.None? || |AnalysisAsWritten(text)[k].subsections.value| == 1)
  {
    var parts := SplitBy(SectionPattern, text);
    SectionPartsHaveNoHeading(text, 0);
    forall k | 0 <= k < |parts|
      ensures NoSubheading(parts[k])
    {
      NoHeadingNoSubheading(parts[k]);
    }
    forall k | 0 <= k < |AnalysisAsWritten(text)|
      ensures NoSubheading(AnalysisAsWritten(text)[k].content)
      ensures AnalysisAsWritten(text)[k].subsections.None? || |AnalysisAsWritten(text)[k].subsections.value| == 1
    {
      var i := CollectSource(parts, |parts|, SectionAt, k);
      var sec := SectionOf(parts[i], i);
      HeadingFreePartContent(parts[i], i);
      UnsplitContentSubsections(sec.content);
    }
  }

  /** With the corrected pattern every `####` heading of the text survives into a part, where the subsection split sees it. */
  lemma CorrectedKeepsSubheadings(text: string, j: nat) returns (k: nat, q: nat)
    requires SubheadingAt(text, j)
    ensures k < |SplitBy(GuardedSectionPattern, text)| && SubheadingAt(SplitBy(GuardedSectionPattern, text)[k], q)
  {
    k, q := GuardedSplitKeepsSubheading(text, 0, j);
  }

  // ---------------------------------------------------------------------
  // Rendering groups and recommendation categories
  // ---------------------------------------------------------------------

  function IsKind(kind: Kind): Section -> bool {
    (sec: Section) => sec.kind == kind
  }

  /** `sections.filter(s => s.type === 'metrics')` and `... === 'recommendations'`: the two groups that are shown. */
  function Shown(sections: seq<Section>, kind: Kind): seq<Section> {
    Filter(IsKind(kind), sections)
  }

  /** A section is shown in the group of its kind and in no other; overview sections are never shown. */
  lemma ShownGroups(sections: seq<Section>, sec: Section)
    ensures sec in Shown(sections, Metrics) <==> sec in sections && sec.kind == Metrics
    ensures sec in Shown(sections, Recommendations) <==> sec in sections && sec.kind == Recommendations
    ensures sec.kind == Overview ==> sec !in Shown(sections, Metrics) && sec !in Shown(sections, Recommendations)
  {
    FilterMembers(IsKind(Metrics), sections, sec);
    FilterMembers(IsKind(Recommendations), sections, sec);
  }

  datatype Category = Category(title: string, recommendations: seq<string>)

  function Numbered(): string -> bool {
    line => StartsNumbered(line)
  }

  /**
   * One category of a recommendations section: its title is the first
   * line without colons, its recommendations the later lines that start
   * with `N.`; it is skipped without either.
   */
  function CategoryOf(piece: string): Option<Category> {
    var lines := NonBlankLines(piece);
    if |lines| == 0 then None
    else
      var title := Trim(Without(lines[0], ':'));
      var recommendations := Filter(Numbered(), lines[1..]);
      if title == "" || |recommendations| == 0 then None else Some(Category(title, recommendations))
  }

  function CategoriesOf(pieces: seq<string>): seq<Category> {
    if |pieces| == 0 then []
    else
      (match CategoryOf(pieces[0]) case Some(c) => [c] case None => []) + CategoriesOf(pieces[1..])
  }

  /** The categories a recommendations section's content is shown as. */
  function Categories(content: string): seq<Category> {
    CategoriesOf(SubsectionPieces(content))
  }

  /** A shown category has a title without colons and one or more recommendations, each starting with `N.` and on one line. */
  predicate WellFormedCategory(c: Category) {
    && c.title != "" && ':' !in c.title
    && |c.recommendations| > 0
    && forall k :: 0 <= k < |c.recommendations| ==> StartsNumbered(c.recommendations[k]) && '\n' !in c.recommendations[k]
  }

  lemma CategoryOfIsWellFormed(piece: string)
    ensures CategoryOf(piece).Some? ==> WellFormedCategory(CategoryOf(piece).value)
  {
    var lines := NonBlankLines(piece);
    if |lines| > 0 {
      NonBlankLinesAreLines(piece);
      TrimKeepsAbsence(Without(lines[0], ':'), ':');
      forall x | x in Filter(Numbered(), lines[1..])
        ensures StartsNumbered(x) && '\n' !in x
      {
        FilterMembers(Numbered(), lines[1..], x);
      }
    }
  }

  lemma {:induction false} CategoriesAreWellFormed(pieces: seq<string>)
    ensures |CategoriesOf(pieces)| <= |pieces|
    ensures forall k :: 0 <= k < |CategoriesOf(pieces)| ==> WellFormedCategory(CategoriesOf(pieces)[k])
  {
    if |pieces| > 0 {
      CategoryOfIsWellFormed(pieces[0]);
      CategoriesAreWellFormed(pieces[1..]);
    }
  }

  /** `const [title, ...descParts] = rec.split(':')`, with `descParts.join(':')` before it is trimmed. */
  function ColonSplit(rec: string): (string, string) {
    var parts := Split(rec, ":");
    (parts[0], Join(parts[1..], ":"))
  }

  /** The title is the text before the first colon, and title, colon and rest give the line back. */
  lemma ColonSplitRejoins(rec: string)
    ensures ':' !in ColonSplit(rec).0
    ensures ':' in rec ==> ColonSplit(rec).0 + ":" + ColonSplit(rec).1 == rec
    ensures ':' !in rec ==> ColonSplit(rec) == (rec, "")
  {
    var parts := Split(rec, ":");
    assert ":" == [':'];
    JoinSplit(rec, ":");
    SplitAvoidsSeparator(rec, ':');
    assert ':' !in parts[0];
    if |parts| > 1 {
      assert rec == parts[0] + ":" + Join(parts[1..], ":");
      assert rec[|parts[0]|] == ':';
    }
  }

  /** `title.replace(...)` with the pattern `^\d+\.\s*\*\*`: a leading `N.` and the bold marker after it are dropped. */
  function DropNumberedBold(t: string): string {
    if StartsNumbered(t) then
      var q := SkipWhite(t, DigitRun(t) + 1);
      if q + 1 < |t| && t[q] == '*' && t[q + 1] == '*' then t[q + 2..] else t
    else t
  }

  /** `.replace(/\*\*$/, '')` */
  function DropTrailingBold(t: string): string {
    if |t| >= 2 && t[|t| - 2] == '*' && t[|t| - 1] == '*' then t[..|t| - 2] else t
  }

  /** The heading shown for one recommendation. */
  function DisplayTitle(title: string): string {
    Trim(DropTrailingBold(DropNumberedBold(title)))
  }

  /** `N. **name**` loses its number and its opening bold marker. */
  lemma DropNumberedBoldOf(d: string, w: string, name: string)
    requires d != [] && forall i :: 0 <= i < |d| ==> IsAsciiDigit(d[i])
    requires AllWhite(w)
    ensures DropNumberedBold(d + "." + w + "**" + name + "**") == name + "**"
  {
    var rest := "**" + name + "**";
    var t := d + "." + w + rest;
    assert t == d + "." + w + "**" + name + "**";
    NumberedLayout(d, w, rest);
    NumberedUpTo(t, |d|, |d| + 1 + |w|);
    var q := |d| + 1 + |w|;
    assert t[q] == '*' && t[q + 1] == '*';
    assert t[q + 2..] == name + "**";
  }

  /** `N. **name**` is shown as `name`. */
  lemma DisplayTitleOfBoldNumbered(d: string, w: string, name: string)
    requires d != [] && forall i :: 0 <= i < |d| ==> IsAsciiDigit(d[i])
    requires AllWhite(w)
    requires name != "" && IsTrimmed(name)
    ensures DisplayTitle(d + "." + w + "**" + name + "**") == name
  {
    DropNumberedBoldOf(d, w, name);
    assert DropTrailingBold(name + "**") == name;
    TrimTrims(name);
  }

  datatype Recommendation = Recommendation(title: string, description: string)

  /** One recommendation line as it is shown: display title and trimmed description. */
  function RecommendationOf(rec: string): Recommendation {
    var split := ColonSplit(rec);
    Recommendation(DisplayTitle(split.0), Trim(split.1))
  }

  /** A line without a colon has no description; `N. **name**: text` is shown as `name` with `text`. */
  lemma RecommendationOfLine(d: string, w: string, name: string, text: string)
    requires d != [] && forall i :: 0 <= i < |d| ==> IsAsciiDigit(d[i])
    requires AllWhite(w)
    requires name != "" && IsTrimmed(name) && ':' !in name && ':' !in w
    ensures RecommendationOf(d + "." + w + "**" + name + "**" + ":" + text) == Recommendation(name, Trim(text))
  {
    var head := d + "." + w + "**" + name + "**";
    var rec := head + ":" + text;
    DigitsHaveNoColon(d);
    assert ':' !in head by {
      assert forall i :: 0 <= i < |head| ==> head[i] != ':' by {
        forall i | 0 <= i < |head| ensures head[i] != ':' {
          if i < |d| { assert head[i] == d[i]; }
          else if i < |d| + 1 + |w| && |d| < i { assert head[i] == w[i - |d| - 1]; }
          else if |d| + 1 + |w| + 2 <= i < |head| - 2 { assert head[i] == name[i - |d| - 1 - |w| - 2]; }
        }
      }
    }
    ColonSplitRejoins(rec);
    var split := ColonSplit(rec);
    assert rec[|head|] == ':';
    ColonSplitTitle(head, text, split.0, split.1);
    DisplayTitleOfBoldNumbered(d, w, name);
  }

  lemma DigitsHaveNoColon(d: string)
    requires forall i :: 0 <= i < |d| ==> IsAsciiDigit(d[i])
    ensures ':' !in d
  {
  }

  /** When a line is `head:text` with no colon in `head`, the colon split gives back `head` and `text`. */
  lemma ColonSplitTitle(head: string, text: string, title: string, rest: string)
    requires ':' !in head && (title, rest) == ColonSplit(head + ":" + text)
    ensures title == head && rest == text
  {
    var rec := head + ":" + text;
    ColonSplitRejoins(rec);
    assert rec[|head|] == ':';
    assert title + ":" + rest == rec;
    assert forall i :: 0 <= i < |head| ==> rec[i] == head[i];
    assert forall i :: 0 <= i < |title| ==> rec[i] == title[i];
    assert rec[|title|] == ':';
    assert |title| == |head|;
    assert rec[..|head|] == title;
    assert rec[|head| + 1..] == rest;
  }
}
