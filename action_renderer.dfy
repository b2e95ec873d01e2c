/**
 * The business-area advisor's view of an action: `renderStructuredAction`
 * cuts the action text at blank lines and turns each piece into a section
 * (as data here, not markup), and the priority badge lookups.
 */
module BusinessAreaAdvisor {
  import opened Wrappers
  import opened Text
  import opened Patterns
  import opened ActionPlanParser

  // Title emoji -------------------------------------------------------------------

  /** The three emoji the template puts in front of step titles. */
  predicate IsTitleEmoji(c: char) {
    c == '\U{1F3C6}' || c == '\U{1F680}' || c == '\U{1F4A1}'
  }

  /**
   * Removing the pattern `^[🏆🚀💡]\s*` read with the `u` flag: one leading title emoji and the
   * white space after it are removed. This is the behaviour the code
   * evidently intends; `StripEmojiUnits` below is what it does.
   */
  function StripEmojiPrefix(title: string): (r: string)
    ensures |r| <= |title| && r == title[|title| - |r|..]
    ensures title == [] || !IsTitleEmoji(title[0]) ==> r == title
  {
    if title != [] && IsTitleEmoji(title[0]) then title[SkipWhite(title, 1)..] else title
  }

  /** A title made of a title emoji, white space and a text not starting with white space loses exactly the first two. */
  lemma StripEmojiPrefixRemoves(e: char, ws: string, rest: string)
    requires IsTitleEmoji(e) && AllWhite(ws) && (rest == [] || !IsWhite(rest[0]))
    ensures StripEmojiPrefix([e] + ws + rest) == rest
  {
    var t := [e] + ws + rest;
    assert forall k :: 1 <= k < 1 + |ws| ==> t[k] == ws[k - 1];
    assert 1 + |ws| < |t| ==> t[1 + |ws|] == rest[0];
    SkipWhiteTo(t, 1, 1 + |ws|);
    assert t[1 + |ws|..] == rest;
  }

  // The same pattern as written: without the `u` flag it reads UTF-16 code units.

  type CodeUnit = u: int | 0 <= u < 0x1_0000

  predicate IsSurrogate(u: int) {
    0xD800 <= u < 0xE000
  }

  predicate IsLowSurrogate(u: int) {
    0xDC00 <= u < 0xE000
  }

  /** The UTF-16 code units of one code point: itself, or a high and a low surrogate. */
  function CodeUnits(c: char): (r: seq<CodeUnit>)
    ensures |r| == 1 || |r| == 2
    ensures !IsLowSurrogate(r[0])
  {
    var v := c as int;
    if v < 0x1_0000 then [v]
    else [0xD800 + (v - 0x1_0000) / 0x400, 0xDC00 + (v - 0x1_0000) % 0x400]
  }

  /** How JavaScript holds a string: its UTF-16 code units. */
  function Utf16(s: string): seq<CodeUnit> {
    if s == [] then [] else CodeUnits(s[0]) + Utf16(s[1..])
  }

  /** No string's encoding starts with a low surrogate. */
  lemma EncodingStartsWell(s: string)
    ensures Utf16(s) != [] ==> !IsLowSurrogate(Utf16(s)[0])
  {
    if s != [] {
      assert Utf16(s)[0] == CodeUnits(s[0])[0];
    }
  }

  /** The members of the class `[🏆🚀💡]` read as code units: the two halves of each emoji. */
  predicate IsEmojiClassUnit(u: CodeUnit) {
    u == 0xD83C || u == 0xDFC6 || u == 0xD83D || u == 0xDE80 || u == 0xDCA1
  }

  /** `\s` on a code unit; a surrogate is never white space. */
  predicate IsWhiteUnit(u: CodeUnit) {
    !IsSurrogate(u) && IsWhite(u as char)
  }

  function SkipWhiteUnits(units: seq<CodeUnit>, i: nat): (j: nat)
    requires i <= |units|
    ensures i <= j <= |units|
    decreases |units| - i
  {
    if i < |units| && IsWhiteUnit(units[i]) then SkipWhiteUnits(units, i + 1) else i
  }

  /** Removing the pattern `^[🏆🚀💡]\s*` as business-area-advisor.tsx writes it, without the `u` flag: one code unit of the class, then white space. */
  function StripEmojiUnits(units: seq<CodeUnit>): (r: seq<CodeUnit>)
    ensures |r| <= |units|
  {
    if units != [] && IsEmojiClassUnit(units[0]) then units[SkipWhiteUnits(units, 1)..] else units
  }

  /** The three title emoji lie outside the basic plane; these are their code units. */
  lemma TitleEmojiUnits(e: char)
    requires IsTitleEmoji(e)
    ensures |CodeUnits(e)| == 2
    ensures CodeUnits(e)[0] == 0xD83C || CodeUnits(e)[0] == 0xD83D
    ensures IsLowSurrogate(CodeUnits(e)[1])
  {
  }

  /**
   * As written, the pattern removes only the high surrogate of a title
   * emoji: what is left starts with the emoji's lone low surrogate, and is
   * the encoding of no string at all.
   */
  lemma StripEmojiUnitsSplitsEmoji(e: char, rest: string)
    requires IsTitleEmoji(e)
    ensures var r := StripEmojiUnits(Utf16([e] + rest));
            && r == CodeUnits(e)[1..] + Utf16(rest)
            && IsLowSurrogate(r[0])
            && forall s: string :: Utf16(s) != r
  {
    var t := [e] + rest;
    assert t[1..] == rest;
    TitleEmojiUnits(e);
    var units := Utf16(t);
    assert units == CodeUnits(e) + Utf16(rest);
    assert SkipWhiteUnits(units, 1) == 1;
    var r := StripEmojiUnits(units);
    assert r == units[1..];
    assert units[1..] == CodeUnits(e)[1..] + Utf16(rest);
    forall s: string ensures Utf16(s) != r {
      EncodingStartsWell(s);
    }
  }

  /** The template's first step title: as written, a lone 0xDFC6 is left in front of " Win"; as intended, "Win" is left. */
  lemma TrophyTitle()
    ensures StripEmojiUnits(Utf16("\U{1F3C6} Win")) == [0xDFC6, 0x20, 0x57, 0x69, 0x6E]
    ensures StripEmojiPrefix("\U{1F3C6} Win") == "Win"
  {
    StripEmojiUnitsSplitsEmoji('\U{1F3C6}', " Win");
    assert "\U{1F3C6} Win" == ['\U{1F3C6}'] + " Win";
    assert Utf16(" Win") == [0x20, 0x57, 0x69, 0x6E];
    StripEmojiPrefixRemoves('\U{1F3C6}', " ", "Win");
  }

  // Sections ----------------------------------------------------------------------

  const DescriptionLabel := "Description:"
  const ExecuteLabel := "How to Execute:"
  const TimelineLabel := "Timeline:"
  const ResourcesLabel := "Resources:"
  const LinksLabel := "Links:"

  /** What one piece of an action renders as. */
  datatype Section =
    | TitleSection(title: string)
    | DescriptionSection(description: string)
    | ExecutionSection(execution: string)
    | TimelineSection(timeline: string)
    | ResourcesSection(items: seq<string>)
    | LinksSection(links: seq<string>)
    | Paragraph(text: string)

  /** The text after a label, trimmed: `piece.replace(tag, '').trim()`. */
  function AfterLabel(piece: string, tag: string): string {
    Trim(ReplaceFirst(piece, tag, ""))
  }

  /** `pieces.map(p => p.trim())` */
  function TrimEach(pieces: seq<string>): (r: seq<string>)
    ensures |r| == |pieces|
  {
    seq(|pieces|, k requires 0 <= k < |pieces| => Trim(pieces[k]))
  }

  /** `links.filter(link => link.startsWith('http'))` */
  function HttpOnly(links: seq<string>): (r: seq<string>)
    ensures |r| <= |links|
    ensures forall k :: 0 <= k < |r| ==> "http" <= r[k]
  {
    if links == [] then []
    else (if "http" <= links[0] then [links[0]] else []) + HttpOnly(links[1..])
  }

  /** The filter keeps a list whose every entry starts with `http`. */
  lemma {:induction false} HttpOnlyKeepsLinks(links: seq<string>)
    requires forall k :: 0 <= k < |links| ==> "http" <= links[k]
    ensures HttpOnly(links) == links
  {
    if links != [] {
      HttpOnlyKeepsLinks(links[1..]);
    }
  }

  /** The first test of the `renderStructuredAction` chain a piece passes. */
  datatype PieceKind = BoldPiece | DescriptionPiece | ExecutionPiece | TimelinePiece | ResourcesPiece | LinksPiece | TextPiece | BlankPiece

  function KindOfPiece(piece: string): PieceKind {
    if "**" <= piece then BoldPiece
    else if DescriptionLabel <= piece then DescriptionPiece
    else if ExecuteLabel <= piece then ExecutionPiece
    else if TimelineLabel <= piece then TimelinePiece
    else if ResourcesLabel <= piece then ResourcesPiece
    else if LinksLabel <= piece then LinksPiece
    else if Trim(piece) != "" then TextPiece
    else BlankPiece
  }

  /**
   * The section for one piece, by the first test it passes: a bold title,
   * the five labels, then any other non-blank text. A piece that starts
   * with `**` but holds no bold span, and a links piece with no `http`
   * entry, give no section.
   */
  function SectionOf(piece: string): Option<Section> {
    match KindOfPiece(piece)
    case BoldPiece =>
      (match BoldGroupFrom(piece, 0)
       case Some(g) => Some(TitleSection(StripEmojiPrefix(g)))
       case None => None)
    case DescriptionPiece => Some(DescriptionSection(AfterLabel(piece, DescriptionLabel)))
    case ExecutionPiece => Some(ExecutionSection(AfterLabel(piece, ExecuteLabel)))
    case TimelinePiece => Some(TimelineSection(AfterLabel(piece, TimelineLabel)))
    case ResourcesPiece => Some(ResourcesSection(TrimEach(Split(AfterLabel(piece, ResourcesLabel), ";"))))
    case LinksPiece =>
      var links := HttpOnly(TrimEach(Split(AfterLabel(piece, LinksLabel), ",")));
      if links != [] then Some(LinksSection(links)) else None
    case TextPiece => Some(Paragraph(Trim(piece)))
    case BlankPiece => None
  }

  /** A section that exists, as a list of one; none as the empty list. */
  function Listed(found: Option<Section>): (r: seq<Section>)
    ensures |r| <= 1
  {
    match found
    case Some(s) => [s]
    case None => []
  }

  /** The sections that exist, in order. */
  function Present(found: seq<Option<Section>>): (r: seq<Section>)
    ensures |r| <= |found|
  {
    if found == [] then [] else Present(found[..|found| - 1]) + Listed(found[|found| - 1])
  }

  /** Each piece's section, if it has one. */
  function Classified(pieces: seq<string>): (r: seq<Option<Section>>)
    ensures |r| == |pieces|
  {
    seq(|pieces|, k requires 0 <= k < |pieces| => SectionOf(pieces[k]))
  }

  /** The sections of the pieces, in order: what the loop pushes. */
  function SectionsOf(pieces: seq<string>): (r: seq<Section>)
    ensures |r| <= |pieces|
  {
    Present(Classified(pieces))
  }

  /** One more piece adds its section, if any, at the end. */
  lemma SectionsOfSnoc(pieces: seq<string>, i: nat)
    requires i < |pieces|
    ensures SectionsOf(pieces[..i + 1]) == SectionsOf(pieces[..i]) + Listed(SectionOf(pieces[i]))
  {
    var found := Classified(pieces[..i + 1]);
    assert found[..i] == Classified(pieces[..i]);
  }

  /** What the advisor shows for an action: its sections, or the whole text as one paragraph when there are none. */
  datatype Rendered = Structured(sections: seq<Section>) | Plain(text: string)

  /**
   * `renderStructuredAction(actionText)`, with titles stripped of their
   * emoji by `StripEmojiPrefix`: at most one section per piece, and the
   * text itself, untouched, when there is none.
   */
  function Render(actionText: string): (r: Rendered)
    ensures r.Structured? ==> 1 <= |r.sections| <= |Split(actionText, "\n\n")|
    ensures r.Plain? ==> r.text == actionText
  {
    var sections := SectionsOf(Split(actionText, "\n\n"));
    if sections != [] then Structured(sections) else Plain(actionText)
  }

  /** The loop of `renderStructuredAction`: one pass over the pieces, pushing each piece's section. */
  method RenderStructuredAction(actionText: string) returns (r: Rendered)
    ensures r == Render(actionText)
  {
    var pieces := Split(actionText, "\n\n");
    var sections: seq<Section> := [];
    for i := 0 to |pieces|
      invariant sections == SectionsOf(pieces[..i])
    {
      SectionsOfSnoc(pieces, i);
      var section := SectionOf(pieces[i]);
      sections := sections + Listed(section);
    }
    assert pieces[..|pieces|] == pieces;
    if |sections| > 0 {
      r := Structured(sections);
    } else {
      r := Plain(actionText);
    }
  }

  // Which section a piece lands in --------------------------------------------------

  /** The kind of piece a section comes from. */
  function KindOfSection(section: Section): PieceKind {
    match section
    case TitleSection(_) => BoldPiece
    case DescriptionSection(_) => DescriptionPiece
    case ExecutionSection(_) => ExecutionPiece
    case TimelineSection(_) => TimelinePiece
    case ResourcesSection(_) => ResourcesPiece
    case LinksSection(_) => LinksPiece
    case Paragraph(_) => TextPiece
  }

  /** None of the pieces gives a section. */
  predicate NoSections(pieces: seq<string>) {
    forall k :: 0 <= k < |pieces| ==> SectionOf(pieces[k]).None?
  }

  /** The whole text is shown as one paragraph exactly when none of its pieces gives a section. */
  lemma PlainWithoutSections(actionText: string)
    ensures Render(actionText).Plain? <==> NoSections(Split(actionText, "\n\n"))
    ensures Render(actionText).Plain? ==> Render(actionText).text == actionText
  {
    SectionsOfEmpty(Split(actionText, "\n\n"));
  }

  /** The pieces give no section exactly when none of them gives one. */
  lemma SectionsOfEmpty(pieces: seq<string>)
    ensures SectionsOf(pieces) == [] <==> NoSections(pieces)
  {
    var found := Classified(pieces);
    PresentEmpty(found);
    assert forall k :: 0 <= k < |pieces| ==> found[k] == SectionOf(pieces[k]);
  }

  /** No section is present exactly when every entry is missing. */
  lemma {:induction false} PresentEmpty(found: seq<Option<Section>>)
    ensures Present(found) == [] <==> forall k :: 0 <= k < |found| ==> found[k].None?
  {
    if found != [] {
      var init := found[..|found| - 1];
      PresentEmpty(init);
      assert forall k :: 0 <= k < |init| ==> init[k] == found[k];
    }
  }
}
