/**
 * The parser's action text read back by the advisor's renderer. The parser
 * joins a step's parts with blank lines; the renderer cuts the text at
 * blank lines and classifies each piece by its prefix. For every step the
 * scanner keeps, no part holds a line feed, so the cut recovers exactly
 * the parts, and each lands in the section its prefix names.
 */
module ActionRoundTrip {
  import opened Wrappers
  import opened Text
  import opened Patterns
  import opened ActionPlanParser
  import opened BusinessAreaAdvisor
  import opened ActionPlanProperties

  predicate NoLineFeed(s: string) {
    '\n' !in s
  }

  predicate AllLinks(links: seq<string>) {
    forall k :: 0 <= k < |links| ==> IsLink(links[k])
  }

  /** What the scanner guarantees of every draft it builds. */
  predicate WellFormed(d: Draft) {
    && NoLineTerminator(d.title)
    && NoLineFeed(d.description) && IsTrimmed(d.description)
    && NoLineFeed(d.execution) && IsTrimmed(d.execution)
    && NoLineFeed(d.timeframe) && IsTrimmed(d.timeframe)
    && NoLineFeed(d.resources)
    && AllLinks(d.links)
  }

  // The renderer's side ---------------------------------------------------------------

  /** The named sections of a draft's filled-in fields, in the order of its parts. */
  function LabelledSections(d: Draft): seq<Section> {
    (if d.description != "" then [DescriptionSection(d.description)] else [])
    + (if d.execution != "" then [ExecutionSection(d.execution)] else [])
    + (if d.timeframe != "" then [TimelineSection(d.timeframe)] else [])
    + (if d.resources != "" then [ResourcesSection(TrimEach(Split(Trim(d.resources), ";")))] else [])
    + (if |d.links| > 0 then [LinksSection(d.links)] else [])
  }

  /** A title section followed by the named sections of a draft's filled-in fields. */
  function DraftSections(title: Section, d: Draft): seq<Section> {
    [title] + LabelledSections(d)
  }

  /** The labelled parts of a draft: every part but the title. */
  function LabelledParts(d: Draft): seq<string> {
    (if d.description != "" then ["Description: " + d.description] else [])
    + (if d.execution != "" then ["How to Execute: " + d.execution] else [])
    + (if d.timeframe != "" then ["Timeline: " + d.timeframe] else [])
    + (if d.resources != "" then ["Resources: " + d.resources] else [])
    + (if |d.links| > 0 then ["Links: " + Join(d.links, ", ")] else [])
  }

  /** The sections present in two runs, one after the other, are those of each, one after the other. */
  lemma {:induction false} PresentAppend(a: seq<Option<Section>>, b: seq<Option<Section>>)
    ensures Present(a + b) == Present(a) + Present(b)
    decreases |b|
  {
    if b != [] {
      var init := b[..|b| - 1];
      PresentAppend(a, init);
      assert (a + b)[..|a + b| - 1] == a + init;
      assert (a + b)[|a + b| - 1] == b[|b| - 1];
    } else {
      assert a + b == a;
    }
  }

  /** The sections of pieces put one after the other are the sections of each, one after the other. */
  lemma SectionsOfAppend(a: seq<string>, b: seq<string>)
    ensures SectionsOf(a + b) == SectionsOf(a) + SectionsOf(b)
  {
    assert Classified(a + b) == Classified(a) + Classified(b);
    PresentAppend(Classified(a), Classified(b));
  }

  /** The part `**title**` gives a title section, holding the title itself when the title is bold-safe. */
  lemma {:induction false} TitlePartSection(t: string)
    requires t != "" && NoLineTerminator(t)
    ensures SectionOf("**" + t + "**").Some? && SectionOf("**" + t + "**").value.TitleSection?
    ensures BoldSafe(t) ==> SectionOf("**" + t + "**") == Some(TitleSection(StripEmojiPrefix(t)))
  {
    WrappedBoldGroup(t);
  }

  /** The label's replacement and the trim take back exactly the text put after `label + " "`. */
  lemma {:induction false} AfterLabelOfPart(tag: string, x: string)
    requires IsTrimmed(x) && x != ""
    ensures AfterLabel(tag + " " + x, tag) == x
  {
    var piece := tag + " " + x;
    assert piece[..|tag|] == tag;
    ReplaceLeadingPrefix(piece, tag);
    assert piece[|tag|..] == " " + x;
    TrimAfterWhite(" ", x);
  }

  /** A string whose first character differs from the pattern's does not start with the pattern. */
  lemma NotPrefixAtFirst(p: string, s: string)
    requires p != [] && s != [] && p[0] != s[0]
    ensures !(p <= s)
  {
  }

  lemma {:induction false} DescriptionPartSection(x: string)
    requires IsTrimmed(x) && x != ""
    ensures SectionOf("Description: " + x) == Some(DescriptionSection(x))
  {
    DescriptionKind(x);
    DescriptionText(x);
  }

  /** A piece starting with the label passes the earlier tests of the chain and stops at the label's. */
  lemma DescriptionKind(x: string)
    ensures KindOfPiece("Description: " + x) == DescriptionPiece
  {
    var piece := "Description: " + x;
    assert piece[0] == 'D' && piece[..|DescriptionLabel|] == DescriptionLabel;
    NotPrefixAtFirst("**", piece);
  }

  /** The label's replacement and the trim take back exactly the text after the label. */
  lemma DescriptionText(x: string)
    requires IsTrimmed(x) && x != ""
    ensures AfterLabel("Description: " + x, DescriptionLabel) == x
  {
    assert "Description: " + x == DescriptionLabel + " " + x;
    AfterLabelOfPart(DescriptionLabel, x);
  }

  lemma {:induction false} ExecutionPartSection(x: string)
    requires IsTrimmed(x) && x != ""
    ensures SectionOf("How to Execute: " + x) == Some(ExecutionSection(x))
  {
    ExecutionKind(x);
    ExecutionText(x);
  }

  /** A piece starting with the label passes the earlier tests of the chain and stops at the label's. */
  lemma ExecutionKind(x: string)
    ensures KindOfPiece("How to Execute: " + x) == ExecutionPiece
  {
    var piece := "How to Execute: " + x;
    assert piece[0] == 'H' && piece[..|ExecuteLabel|] == ExecuteLabel;
    NotPrefixAtFirst("**", piece);
    NotPrefixAtFirst(DescriptionLabel, piece);
  }

  /** The label's replacement and the trim take back exactly the text after the label. */
  lemma ExecutionText(x: string)
    requires IsTrimmed(x) && x != ""
    ensures AfterLabel("How to Execute: " + x, ExecuteLabel) == x
  {
    assert "How to Execute: " + x == ExecuteLabel + " " + x;
    AfterLabelOfPart(ExecuteLabel, x);
  }

  lemma {:induction false} TimelinePartSection(x: string)
    requires IsTrimmed(x) && x != ""
    ensures SectionOf("Timeline: " + x) == Some(TimelineSection(x))
  {
    TimelineKind(x);
    TimelineText(x);
  }

  /** A piece starting with the label passes the earlier tests of the chain and stops at the label's. */
  lemma TimelineKind(x: string)
    ensures KindOfPiece("Timeline: " + x) == TimelinePiece
  {
    var piece := "Timeline: " + x;
    assert piece[0] == 'T' && piece[..|TimelineLabel|] == TimelineLabel;
    NotPrefixAtFirst("**", piece);
    NotPrefixAtFirst(DescriptionLabel, piece);
    NotPrefixAtFirst(ExecuteLabel, piece);
  }

  /** The label's replacement and the trim take back exactly the text after the label. */
  lemma TimelineText(x: string)
    requires IsTrimmed(x) && x != ""
    ensures AfterLabel("Timeline: " + x, TimelineLabel) == x
  {
    assert "Timeline: " + x == TimelineLabel + " " + x;
    AfterLabelOfPart(TimelineLabel, x);
  }


  /**
   * The resources part lists its text's ';'-separated pieces, trimmed. The
   * text itself need not be trimmed: an empty bullet leaves "; " at its end.
   */
  lemma {:induction false} ResourcesPartSection(x: string)
    ensures SectionOf("Resources: " + x) == Some(ResourcesSection(TrimEach(Split(Trim(x), ";"))))
  {
    var piece := "Resources: " + x;
    assert piece == ResourcesLabel + " " + x;
    ResourcesKind(x);
    ReplaceLeadingPrefix(piece, ResourcesLabel);
    assert piece[|ResourcesLabel|..] == " " + x;
    TrimDropsLeadingWhite(" ", x);
  }

  /** A piece starting with the label passes the earlier tests of the chain and stops at the label's. */
  lemma ResourcesKind(x: string)
    ensures KindOfPiece(ResourcesLabel + " " + x) == ResourcesPiece
  {
    var piece := ResourcesLabel + " " + x;
    assert piece[0] == 'R' && piece[..|ResourcesLabel|] == ResourcesLabel;
    NotPrefixAtFirst("**", piece);
    NotPrefixAtFirst(DescriptionLabel, piece);
    NotPrefixAtFirst(ExecuteLabel, piece);
    NotPrefixAtFirst(TimelineLabel, piece);
  }

  /** The pieces `split(',')` cuts a ", "-joined list into: the first link, then each further link after its space. */
  function Spaced(links: seq<string>): (r: seq<string>)
    requires links != []
    ensures |r| == |links|
  {
    [links[0]] + seq(|links| - 1, k requires 0 <= k < |links| - 1 => " " + links[k + 1])
  }

  /** Joining with ", " is joining the spaced pieces with ",". */
  lemma {:induction false} JoinSpaced(links: seq<string>)
    requires links != []
    ensures Join(links, ", ") == Join(Spaced(links), ",")
    decreases |links|
  {
    if |links| > 1 {
      var rest := links[1..];
      JoinSpaced(rest);
      var s := Spaced(links);
      var t := Spaced(rest);
      assert s[1..] == [" " + t[0]] + t[1..];
      assert Join(s[1..], ",") == " " + Join(t, ",");
    }
  }

  /** Links joined with ", " leave no white space at either end. */
  lemma {:induction false} JoinedLinksTrimmed(links: seq<string>)
    requires links != [] && AllLinks(links)
    ensures Join(links, ", ") != "" && IsTrimmed(Join(links, ", "))
    decreases |links|
  {
    assert links[0][0] == 'h';
    if |links| > 1 {
      JoinedLinksTrimmed(links[1..]);
      var j := Join(links, ", ");
      var rest := Join(links[1..], ", ");
      assert j == links[0] + ", " + rest;
      assert j[0] == links[0][0] && j[|j| - 1] == rest[|rest| - 1];
    } else {
      var l := links[0];
      assert !IsWhite(l[|l| - 1]);
    }
  }

  /** A piece starting with the links label is classified as a links piece. */
  lemma LinksPieceSection(piece: string)
    requires LinksLabel <= piece
    ensures var links := HttpOnly(TrimEach(Split(AfterLabel(piece, LinksLabel), ",")));
            SectionOf(piece) == if links != [] then Some(LinksSection(links)) else None
  {
    assert KindOfPiece(piece) == LinksPiece by {
      assert piece[0] == 'L';
      NotPrefixAtFirst("**", piece);
      NotPrefixAtFirst(DescriptionLabel, piece);
      NotPrefixAtFirst(ExecuteLabel, piece);
      NotPrefixAtFirst(TimelineLabel, piece);
      NotPrefixAtFirst(ResourcesLabel, piece);
    }
  }

  /** The links part gives back exactly its links, when none of them holds a comma. */
  lemma {:induction false} LinksPartSection(links: seq<string>)
    requires links != [] && AllLinks(links)
    requires forall k :: 0 <= k < |links| ==> ',' !in links[k]
    ensures SectionOf("Links: " + Join(links, ", ")) == Some(LinksSection(links))
  {
    var joined := Join(links, ", ");
    var piece := "Links: " + joined;
    assert piece == LinksLabel + " " + joined;
    assert piece[..|LinksLabel|] == LinksLabel;
    LinksPieceSection(piece);
    JoinedLinksTrimmed(links);
    AfterLabelOfPart(LinksLabel, joined);
    LinksSplitBack(links);
  }

  /** Cutting the joined links at commas and trimming the pieces gives the links back, all kept by the `http` filter. */
  lemma {:induction false} LinksSplitBack(links: seq<string>)
    requires links != [] && AllLinks(links)
    requires forall k :: 0 <= k < |links| ==> ',' !in links[k]
    ensures HttpOnly(TrimEach(Split(Join(links, ", "), ","))) == links
  {
    SpacedSplits(links);
    SpacedTrims(links);
    HttpOnlyKeepsLinks(links);
  }

  /** Cutting the joined links at commas gives the spaced pieces. */
  lemma SpacedSplits(links: seq<string>)
    requires links != []
    requires forall k :: 0 <= k < |links| ==> ',' !in links[k]
    ensures Split(Join(links, ", "), ",") == Spaced(links)
  {
    JoinSpaced(links);
    var spaced := Spaced(links);
    forall k | 0 <= k < |spaced|
      ensures ","[0] !in spaced[k]
    {
      if k > 0 { assert spaced[k] == " " + links[k]; }
    }
    SplitJoin(spaced, ",");
  }

  /** Trimming the spaced pieces gives the links back. */
  lemma SpacedTrims(links: seq<string>)
    requires links != [] && AllLinks(links)
    ensures TrimEach(Spaced(links)) == links
  {
    var spaced := Spaced(links);
    forall k | 0 <= k < |links|
      ensures Trim(spaced[k]) == links[k]
    {
      assert links[k][0] == 'h';
      TrimTrims(links[k]);
      if k > 0 {
        TrimAfterWhite(" ", links[k]);
      }
    }
  }

  /** No part of a well-formed draft holds a line feed. */
  lemma {:induction false} PartsOneLine(d: Draft)
    requires WellFormed(d)
    ensures forall k :: 0 <= k < |Parts(d)| ==> '\n' !in Parts(d)[k]
  {
    forall k | 0 <= k < |d.title| ensures d.title[k] != '\n' {
      assert !IsLineTerminator(d.title[k]);
    }
    if |d.links| > 0 {
      forall k | 0 <= k < |d.links| ensures '\n' !in d.links[k] {
        assert IsLink(d.links[k]);
      }
      LinksJoinOneLine(d.links);
    }
  }

  lemma {:induction false} LinksJoinOneLine(links: seq<string>)
    requires forall k :: 0 <= k < |links| ==> '\n' !in links[k]
    ensures '\n' !in Join(links, ", ")
    decreases |links|
  {
    if |links| > 1 {
      LinksJoinOneLine(links[1..]);
    }
  }

  /** The sections of five runs of pieces, one after the other. */
  lemma SectionsOfFive(de: seq<string>, ex: seq<string>, ti: seq<string>, re: seq<string>, li: seq<string>)
    ensures SectionsOf(de + ex + ti + re + li)
         == SectionsOf(de) + SectionsOf(ex) + SectionsOf(ti) + SectionsOf(re) + SectionsOf(li)
  {
    SectionsOfAppend(de + ex + ti + re, li);
    SectionsOfAppend(de + ex + ti, re);
    SectionsOfAppend(de + ex, ti);
    SectionsOfAppend(de, ex);
  }

  /** A single piece gives its own section, if any. */
  lemma SectionsOfOne(p: string)
    ensures SectionsOf([p]) == Listed(SectionOf(p))
  {
    assert Classified([p])[..0] == [];
  }

  /** Each labelled part of a well-formed draft gives its named section. */
  lemma {:induction false} LabelledPartsSections(d: Draft)
    requires WellFormed(d)
    requires forall k :: 0 <= k < |d.links| ==> ',' !in d.links[k]
    ensures SectionsOf(LabelledParts(d)) == LabelledSections(d)
  {
    if d.description != "" { DescriptionPartSection(d.description); }
    if d.execution != "" { ExecutionPartSection(d.execution); }
    if d.timeframe != "" { TimelinePartSection(d.timeframe); }
    if d.resources != "" { ResourcesPartSection(d.resources); }
    if |d.links| > 0 { LinksPartSection(d.links); }
    FiveOptionalParts(
      d.description != "", "Description: " + d.description, DescriptionSection(d.description),
      d.execution != "", "How to Execute: " + d.execution, ExecutionSection(d.execution),
      d.timeframe != "", "Timeline: " + d.timeframe, TimelineSection(d.timeframe),
      d.resources != "", "Resources: " + d.resources, ResourcesSection(TrimEach(Split(Trim(d.resources), ";"))),
      |d.links| > 0, "Links: " + Join(d.links, ", "), LinksSection(d.links));
  }

  /** Five optional parts, each giving its section when present, give those sections in order. */
  lemma FiveOptionalParts(
    p1: bool, s1: string, c1: Section, p2: bool, s2: string, c2: Section, p3: bool, s3: string, c3: Section,
    p4: bool, s4: string, c4: Section, p5: bool, s5: string, c5: Section)
    requires p1 ==> SectionOf(s1) == Some(c1)
    requires p2 ==> SectionOf(s2) == Some(c2)
    requires p3 ==> SectionOf(s3) == Some(c3)
    requires p4 ==> SectionOf(s4) == Some(c4)
    requires p5 ==> SectionOf(s5) == Some(c5)
    ensures SectionsOf((if p1 then [s1] else []) + (if p2 then [s2] else []) + (if p3 then [s3] else [])
                       + (if p4 then [s4] else []) + (if p5 then [s5] else []))
         == (if p1 then [c1] else []) + (if p2 then [c2] else []) + (if p3 then [c3] else [])
            + (if p4 then [c4] else []) + (if p5 then [c5] else [])
  {
    SectionsOfFive(if p1 then [s1] else [], if p2 then [s2] else [], if p3 then [s3] else [],
                   if p4 then [s4] else [], if p5 then [s5] else []);
    OptionalPart(p1, s1, c1);
    OptionalPart(p2, s2, c2);
    OptionalPart(p3, s3, c3);
    OptionalPart(p4, s4, c4);
    OptionalPart(p5, s5, c5);
  }

  /** A part that is present exactly when `present` holds gives its section exactly then. */
  lemma OptionalPart(present: bool, piece: string, section: Section)
    requires present ==> SectionOf(piece) == Some(section)
    ensures SectionsOf(if present then [piece] else []) == (if present then [section] else [])
  {
    if present { SectionsOfOne(piece); }
  }

  /** Cutting the action text of a titled, well-formed draft at blank lines gives back its parts. */
  lemma {:induction false} ActionTextSplitsIntoParts(d: Draft)
    requires d.title != "" && WellFormed(d)
    ensures Split(ActionText(d), "\n\n") == Parts(d)
  {
    var parts := Parts(d);
    PartsOneLine(d);
    SplitJoin(parts, "\n\n");
    assert parts[0] == "**" + d.title + "**";
  }

  /** The parts of a titled, well-formed draft give the section of its title part, then one named section per labelled part. */
  lemma {:induction false} PartsSections(d: Draft)
    requires d.title != "" && WellFormed(d)
    requires forall k :: 0 <= k < |d.links| ==> ',' !in d.links[k]
    ensures SectionOf("**" + d.title + "**").Some?
    ensures SectionsOf(Parts(d)) == DraftSections(SectionOf("**" + d.title + "**").value, d)
  {
    var t := "**" + d.title + "**";
    TitlePartSection(d.title);
    PartsAsRuns(d);
    SectionsOfAppend([t], LabelledParts(d));
    SectionsOfOne(t);
    LabelledPartsSections(d);
  }

  /** The title section heads the sections. */
  lemma DraftSectionsHead(title: Section, d: Draft)
    ensures DraftSections(title, d) != [] && DraftSections(title, d)[0] == title
    ensures d.title != "" ==> |DraftSections(title, d)| == |Parts(d)|
  {
  }

  /** A titled draft's parts are its title part, then its labelled parts. */
  lemma PartsAsRuns(d: Draft)
    requires d.title != ""
    ensures Parts(d) == ["**" + d.title + "**"] + LabelledParts(d)
  {
  }

  /**
   * The advisor shows the action text of a titled, well-formed draft as one
   * section per part, in order: a title section, then the named sections
   * holding exactly the draft's fields. The title section holds the title,
   * its emoji stripped, whenever the title is bold-safe.
   */
  lemma {:induction false} RenderActionText(d: Draft)
    requires d.title != "" && WellFormed(d)
    requires forall k :: 0 <= k < |d.links| ==> ',' !in d.links[k]
    ensures var r := Render(ActionText(d));
            && r.Structured? && r.sections != [] && r.sections[0].TitleSection?
            && r.sections == DraftSections(r.sections[0], d)
            && |r.sections| == |Parts(d)|
    ensures BoldSafe(d.title) ==> Render(ActionText(d)) == Structured(DraftSections(TitleSection(StripEmojiPrefix(d.title)), d))
  {
    ActionTextSplitsIntoParts(d);
    PartsSections(d);
    TitlePartSection(d.title);
    DraftSectionsHead(SectionOf("**" + d.title + "**").value, d);
  }

  // The parser's side ----------------------------------------------------------------

  /** What a capture block has gathered so far stays on one line, trimmed; links are links. */
  predicate WellFormedMode(mode: Mode) {
    match mode
    case Scanning => true
    case InDescription(text) => NoLineFeed(text) && IsTrimmed(text)
    case InExecution(text) => NoLineFeed(text) && IsTrimmed(text)
    case InResources(text, found) => NoLineFeed(text) && AllLinks(found)
  }

  /** The scanner's invariant: every flushed draft is titled and well formed, and so is what is being built. */
  predicate WellFormedState(st: ScanState) {
    && (forall k :: 0 <= k < |st.drafts| ==> st.drafts[k].title != "" && WellFormed(st.drafts[k]))
    && WellFormed(st.draft)
    && WellFormedMode(st.mode)
  }

  /** A string without line terminators has no line feed. */
  lemma OneLineHasNoLineFeed(s: string)
    requires NoLineTerminator(s)
    ensures NoLineFeed(s)
  {
    forall k | 0 <= k < |s| ensures s[k] != '\n' {
      assert !IsLineTerminator(s[k]);
    }
  }

  /** Trimming keeps a string on one line. */
  lemma TrimKeepsOneLine(s: string)
    requires NoLineTerminator(s)
    ensures NoLineTerminator(Trim(s))
  {
    var a := TrimIsSlice(s);
    var r := Trim(s);
    forall k | 0 <= k < |r| ensures !IsLineTerminator(r[k]) {
      assert r[k] == s[a + k];
    }
  }

  /** The values a line's directive carries are on one line, and a timeline is trimmed. */
  lemma {:induction false} DirectiveValuesOneLine(line: string)
    ensures DirectiveOf(line).NewStep? ==> NoLineTerminator(DirectiveOf(line).title)
    ensures DirectiveOf(line).SetTimeline? && DirectiveOf(line).timeframe.Some? ==>
              NoLineFeed(DirectiveOf(line).timeframe.value) && IsTrimmed(DirectiveOf(line).timeframe.value)
  {
    NumberedLineStartsStep(line);
    TitleGroupOneLine(line);
    if TitleGroup(line).Some? {
      TrimKeepsOneLine(TitleGroup(line).value);
    }
    TimelineGroupOneLine(line, 0);
    match TimelineGroupFrom(line, 0)
    case Some(t) =>
      TrimKeepsOneLine(t);
      TrimTrims(t);
      OneLineHasNoLineFeed(Trim(t));
    case None =>
  }

  /** Values a directive may carry into the draft. */
  predicate DirectiveOneLine(d: Directive) {
    && (d.NewStep? ==> NoLineTerminator(d.title))
    && (d.SetTimeline? && d.timeframe.Some? ==> NoLineFeed(d.timeframe.value) && IsTrimmed(d.timeframe.value))
  }

  lemma ApplyKeepsWellFormed(st: ScanState, d: Directive)
    requires WellFormedState(st) && DirectiveOneLine(d)
    ensures WellFormedState(Apply(st, d))
  {
  }

  lemma CloseKeepsWellFormed(st: ScanState)
    requires WellFormedState(st)
    ensures WellFormedState(Close(st))
  {
  }

  /** A captured line joined on keeps the text on one line and trimmed. */
  lemma JoinLineWellFormed(text: string, line: string)
    requires NoLineFeed(text) && IsTrimmed(text) && NoLineFeed(line)
    ensures NoLineFeed(JoinLine(text, line)) && IsTrimmed(JoinLine(text, line))
  {
    var r := Trim(line);
    TrimTrims(line);
    TrimKeepsAbsence(line, '\n');
    if r != "" {
      AppendKeepsTrimmed(text, " ", r);
    }
  }

  /** A resources line keeps the gathered text on one line, and adds only links. */
  lemma GatherLineWellFormed(g: Gathered, line: string)
    requires NoLineFeed(g.text) && AllLinks(g.links) && NoLineFeed(line)
    ensures NoLineFeed(GatherLine(g, line).text) && AllLinks(GatherLine(g, line).links)
  {
    var r := Trim(line);
    TrimKeepsAbsence(line, '\n');
    if IsBullet(r) {
      var rest := r[1..];
      assert forall k :: 0 <= k < |rest| ==> rest[k] == r[k + 1];
      TrimKeepsAbsence(rest, '\n');
      var clean := Trim(rest);
      UrlsFromAreLinks(clean, 0);
      var found := UrlsFrom(clean, 0);
      assert forall k :: 0 <= k < |g.links + found| ==> (g.links + found)[k] == if k < |g.links| then g.links[k] else found[k - |g.links|];
    }
  }

  lemma AbsorbKeepsWellFormed(mode: Mode, line: string)
    requires WellFormedMode(mode) && NoLineFeed(line)
    ensures WellFormedMode(Absorb(mode, line))
  {
    match mode
    case Scanning =>
    case InDescription(text) => JoinLineWellFormed(text, line);
    case InExecution(text) => JoinLineWellFormed(text, line);
    case InResources(text, found) => GatherLineWellFormed(Gathered(text, found), line);
  }

  /** One line of the scan keeps the invariant. */
  lemma NextKeepsWellFormed(st: ScanState, line: string)
    requires WellFormedState(st) && NoLineFeed(line)
    ensures WellFormedState(Next(st, line))
  {
    NextOnInfo(st, line);
    var info := Info(line);
    if Closes(Kind(st.mode), info) {
      CloseKeepsWellFormed(st);
      DirectiveValuesOneLine(line);
      ApplyKeepsWellFormed(Close(st), info.directive);
    } else {
      AbsorbKeepsWellFormed(st.mode, line);
    }
  }

  /** The whole scan keeps the invariant. */
  lemma {:induction false} RunKeepsWellFormed(st: ScanState, lines: seq<string>)
    requires WellFormedState(st)
    requires forall k :: 0 <= k < |lines| ==> NoLineFeed(lines[k])
    ensures WellFormedState(Run(st, lines))
    decreases |lines|
  {
    if lines != [] {
      var init := lines[..|lines| - 1];
      RunKeepsWellFormed(st, init);
      NextKeepsWellFormed(Run(st, init), lines[|lines| - 1]);
    }
  }

  /** Trimmed non-blank pieces of line-feed-free pieces are line-feed free. */
  lemma {:induction false} NonBlankTrimmedOneLine(pieces: seq<string>)
    requires forall k :: 0 <= k < |pieces| ==> NoLineFeed(pieces[k])
    ensures forall k :: 0 <= k < |NonBlankTrimmed(pieces)| ==> NoLineFeed(NonBlankTrimmed(pieces)[k])
    decreases |pieces|
  {
    if pieces != [] {
      NonBlankTrimmedOneLine(pieces[1..]);
      TrimKeepsAbsence(pieces[0], '\n');
    }
  }

  /** The response's lines hold no line feed. */
  lemma LinesOneLine(response: string)
    ensures forall k :: 0 <= k < |Lines(response)| ==> NoLineFeed(Lines(response)[k])
  {
    SplitAvoidsSeparator(response, '\n');
    NonBlankTrimmedOneLine(Split(response, "\n"));
  }

  /** Every step the text path keeps comes from a titled, well-formed draft. */
  lemma ParsedDraftsWellFormed(response: string, defaultGoal: string)
    ensures forall k :: 0 <= k < |ParsedDrafts(response, defaultGoal)| ==>
              ParsedDrafts(response, defaultGoal)[k].title != "" && WellFormed(ParsedDrafts(response, defaultGoal)[k])
  {
    LinesOneLine(response);
    var st := Run(Start(defaultGoal), Lines(response));
    RunKeepsWellFormed(Start(defaultGoal), Lines(response));
    CloseKeepsWellFormed(st);
  }

  /**
   * The advisor shows every action the text path builds from a titled step
   * as one section per part, in order: a title section, then the named
   * sections holding exactly the step's description, execution, timeline,
   * resources and links. The one proviso is that no link holds a comma.
   */
  lemma ParsedActionRenders(response: string, defaultGoal: string, k: nat)
    requires k < |ParsedDrafts(response, defaultGoal)|
    requires var d := ParsedDrafts(response, defaultGoal)[k];
             forall j :: 0 <= j < |d.links| ==> ',' !in d.links[j]
    ensures var d := ParsedDrafts(response, defaultGoal)[k];
            var steps := ParseText(response, defaultGoal).steps;
            && k < |steps| && steps[k].action == ActionText(d)
            && var r := Render(steps[k].action);
            && r.Structured? && r.sections != [] && r.sections[0].TitleSection?
            && r.sections == DraftSections(r.sections[0], d)
            && |r.sections| == |Parts(d)|
  {
    var d := ParsedDrafts(response, defaultGoal)[k];
    ParsedDraftsWellFormed(response, defaultGoal);
    RenderActionText(d);
  }
}
