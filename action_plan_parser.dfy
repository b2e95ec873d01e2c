/**
 * Turning a model reply into an action plan: the stage-goal table, the
 * JSON-or-text dispatch, and the scanner for the formatted text reply.
 *
 * The scanner is specified one line at a time: `Next` moves a `ScanState`
 * over one line, `Run` folds it over the lines, and `ParseText` finishes
 * the run. `ParseFormattedTextResponse` is the index loop with its capture
 * loops that step forward and back one line; it is proved to compute
 * `ParseText`.
 */
module ActionPlanParser {
  import opened Wrappers
  import opened Text
  import opened Patterns

  datatype Priority = High | Medium | Low

  /** A step as the parser returns it; `resources` is absent only in the fallback step. */
  datatype Step = Step(action: string, priority: Priority, timeframe: string, resources: Option<string>)

  datatype Plan = Plan(goal: string, steps: seq<Step>)

  // Stage goals ------------------------------------------------------------

  const DefaultStageKey := "Stage 2 - Advertise"
  const DefaultAreaGoal := "Improve this business area"

  /** The goal table, rows in key order. */
  const StageGoals: seq<(string, map<string, string>)> := [
    ("Stage 0 - Improvise", map[
      "PRODUCT" := "Create a minimum viable product that solves a real problem",
      "MARKETING" := "Find your first customers through personal networks",
      "SALES" := "Learn to sell your solution through direct conversations",
      "CUSTOMER SERVICE" := "Handle early customer feedback personally",
      "IT" := "Set up basic systems for customer communication",
      "RECRUITING" := "Identify what help you need most",
      "HR" := "Establish basic company structure",
      "FINANCE" := "Track every dollar in and out"]),
    ("Stage 1 - Monetize", map[
      "PRODUCT" := "Make your product valuable enough that customers pay",
      "MARKETING" := "Develop consistent lead generation methods",
      "SALES" := "Create a repeatable sales process",
      "CUSTOMER SERVICE" := "Build systems to handle customer inquiries",
      "IT" := "Implement basic CRM and communication tools",
      "RECRUITING" := "Hire your first part-time helper",
      "HR" := "Create basic employment documentation",
      "FINANCE" := "Establish proper bookkeeping and cash flow tracking"]),
    ("Stage 2 - Advertise", map[
      "PRODUCT" := "Focus on making it good before making it scalable",
      "MARKETING" := "Implement Rule of 100 daily and use Core Four consistently",
      "SALES" := "Create and implement CLOSER framework script",
      "CUSTOMER SERVICE" := "Develop customer service scripts and testimonial processes",
      "IT" := "Set up lead capture and customer tracking systems",
      "RECRUITING" := "Transition from freelancers to full-time workers",
      "HR" := "Establish proper hiring processes",
      "FINANCE" := "Check bank account daily and track key metrics"]),
    ("Stage 3 - Stabilize", map[
      "PRODUCT" := "Build scalable systems and processes",
      "MARKETING" := "Scale marketing efforts across multiple channels",
      "SALES" := "Build a sales team and systematize the process",
      "CUSTOMER SERVICE" := "Create comprehensive customer success processes",
      "IT" := "Implement robust systems and security measures",
      "RECRUITING" := "Build a systematic hiring process",
      "HR" := "Develop comprehensive HR policies and procedures",
      "FINANCE" := "Implement financial controls and reporting"])
  ]

  /** The index of the first row at or after `from` whose key contains `stage`. */
  function FirstStageRow(stage: string, from: nat): (r: Option<nat>)
    ensures r.Some? ==> from <= r.value < |StageGoals| && Contains(StageGoals[r.value].0, stage)
    ensures forall k :: from <= k < |StageGoals| && (r.None? || k < r.value) ==> !Contains(StageGoals[k].0, stage)
    decreases |StageGoals| - from
  {
    if from >= |StageGoals| then None
    else if Contains(StageGoals[from].0, stage) then Some(from)
    else FirstStageRow(stage, from + 1)
  }

  /** The row `Object.keys(STAGE_GOALS).find(key => key.includes(stage)) || 'Stage 2 - Advertise'` selects. */
  function StageRow(stage: string): (k: nat)
    ensures k < |StageGoals|
    ensures (exists j :: 0 <= j < |StageGoals| && Contains(StageGoals[j].0, stage)) ==>
              Contains(StageGoals[k].0, stage) && forall j :: 0 <= j < k ==> !Contains(StageGoals[j].0, stage)
    ensures (forall j :: 0 <= j < |StageGoals| ==> !Contains(StageGoals[j].0, stage)) ==> k == 2
  {
    match FirstStageRow(stage, 0)
    case Some(k) => k
    case None => 2
  }

  /** The goal the text parser starts from: the selected row's entry for the area, or the generic goal. */
  function TableGoal(stage: string, area: string): (goal: string)
    ensures area in StageGoals[StageRow(stage)].1 ==> goal == StageGoals[StageRow(stage)].1[area]
    ensures area !in StageGoals[StageRow(stage)].1 ==> goal == DefaultAreaGoal
  {
    var row := StageGoals[StageRow(stage)].1;
    if area in row then row[area] else DefaultAreaGoal
  }

  // Markers -----------------------------------------------------------------

  const GoalLabel := "STAGE GOAL:"
  const HighMarker := "HIGH PRIORITY"
  const MediumMarker := "MEDIUM PRIORITY"
  const LowMarker := "LOW PRIORITY"
  const GoalEmoji := "\U{1F3AF}"
  const DescriptionMarker := "**\U{1F4DD} Description:**"
  const ExecuteMarker := "**\U{26A1} How to Execute:**"
  const TimelineMarker := "**\U{23F0} Timeline:**"
  const ResourcesPrefix := "**\U{1F6E0}\U{FE0F} Resources"
  const ResourcesMarker := "**\U{1F6E0}\U{FE0F} Resources & Links:**"
  const SuccessMarker := "**\U{2705} Success Criteria:**"

  /** `STAGE GOAL:` at `p` under the `i` flag, which folds ASCII letters only. */
  predicate GoalLabelAt(s: string, p: nat) {
    OccursFoldedAt(s, GoalLabel, p)
  }

  /** The length of the goal marker at `p`, alternatives in the pattern's order. */
  function GoalMarkerAt(s: string, p: nat): (n: Option<nat>)
    ensures n.Some? ==> p + n.value <= |s|
  {
    if GoalLabelAt(s, p) then Some(|GoalLabel|)
    else if OccursAt(s, GoalEmoji, p) then Some(|GoalEmoji|)
    else None
  }

  /** The group of the leftmost match of `/(?:STAGE GOAL:|🎯)\s*(.+)/i` at or after `p`. */
  function GoalGroupFrom(s: string, p: nat): (g: Option<string>)
    ensures g.Some? ==> g.value != ""
    decreases |s| - p
  {
    if p >= |s| then None
    else
      match GoalMarkerAt(s, p)
      case Some(n) =>
        (match GreedyRestGroup(s[p + n..])
         case Some(g) => Some(g)
         case None => GoalGroupFrom(s, p + 1))
      case None => GoalGroupFrom(s, p + 1)
  }

  /** The group of the leftmost match of `/\*\*⏰ Timeline:\*\*\s*(.+)/` at or after `p`. */
  function TimelineGroupFrom(s: string, p: nat): (g: Option<string>)
    ensures g.Some? ==> g.value != ""
    decreases |s| - p
  {
    if p >= |s| then None
    else if OccursAt(s, TimelineMarker, p) then
      match GreedyRestGroup(s[p + |TimelineMarker|..])
      case Some(g) => Some(g)
      case None => TimelineGroupFrom(s, p + 1)
    else TimelineGroupFrom(s, p + 1)
  }

  /** A goal group lies within one line. */
  lemma {:induction false} GoalGroupOneLine(s: string, p: nat)
    ensures GoalGroupFrom(s, p).Some? ==> NoLineTerminator(GoalGroupFrom(s, p).value)
    decreases |s| - p
  {
    if p < |s| {
      match GoalMarkerAt(s, p)
      case Some(n) =>
        GreedyRestGroupOneLine(s[p + n..]);
        GoalGroupOneLine(s, p + 1);
      case None =>
        GoalGroupOneLine(s, p + 1);
    }
  }

  /** A timeline group lies within one line. */
  lemma {:induction false} TimelineGroupOneLine(s: string, p: nat)
    ensures TimelineGroupFrom(s, p).Some? ==> NoLineTerminator(TimelineGroupFrom(s, p).value)
    decreases |s| - p
  {
    if p < |s| {
      if OccursAt(s, TimelineMarker, p) {
        GreedyRestGroupOneLine(s[p + |TimelineMarker|..]);
      }
      TimelineGroupOneLine(s, p + 1);
    }
  }

  /** The title group of `^\d+\.\s*\*\*(.+?)\*\*`: digits, a full stop, white space, then a lazy bold span. */
  function TitleGroup(line: string): (g: Option<string>)
    ensures g.Some? ==> StartsNumbered(line) && g.value != ""
  {
    if !StartsNumbered(line) then None
    else
      var p := DigitRun(line) + 1;
      BoldGroupAt(line, SkipWhite(line, p))
  }

  /** A title group lies within one line. */
  lemma TitleGroupOneLine(line: string)
    ensures TitleGroup(line).Some? ==> NoLineTerminator(TitleGroup(line).value)
  {
    if StartsNumbered(line) {
      BoldGroupAtOneLine(line, SkipWhite(line, DigitRun(line) + 1));
    }
  }

  // Scanner state -------------------------------------------------------------

  /**
   * The step being assembled. JavaScript's `undefined` and `''` are both
   * falsy wherever these fields are read, so both are `""` here.
   */
  datatype Draft = Draft(
    title: string,
    description: string,
    execution: string,
    timeframe: string,
    resources: string,
    links: seq<string>,
    priority: Priority)

  /** Scanning lines, or inside a capture block with what it has gathered so far. */
  datatype Mode =
    | Scanning
    | InDescription(text: string)
    | InExecution(text: string)
    | InResources(text: string, found: seq<string>)

  /** The scanner's variables; `drafts` are the steps flushed so far, before formatting. */
  datatype ScanState = ScanState(goal: string, drafts: seq<Draft>, priority: Priority, draft: Draft, mode: Mode)

  /** The accumulator before the first numbered line: it has no title, so it is never flushed. */
  const NoDraft := Draft("", "", "", "", "", [], Medium)

  function Start(goal: string): ScanState {
    ScanState(goal, [], Medium, NoDraft, Scanning)
  }

  /** The trimmed title group of a numbered line, or "" when the line has none. */
  function TitleOf(line: string): string {
    match TitleGroup(line)
    case Some(g) => Trim(g)
    case None => ""
  }

  /** A title is trimmed, and a non-empty one is the trimmed title group of a numbered line. */
  lemma TitleOfTrimmed(line: string)
    ensures IsTrimmed(TitleOf(line))
    ensures TitleOf(line) != "" ==> StartsNumbered(line) && TitleGroup(line).Some? && TitleOf(line) == Trim(TitleGroup(line).value)
  {
    if TitleGroup(line).Some? {
      TrimTrims(TitleGroup(line).value);
    }
  }

  /** A numbered line opens a step with the priority in force and its title. */
  function StartDraft(priority: Priority, title: string): (d: Draft)
    ensures d.title == title && d.priority == priority && d.links == []
    ensures d.description == d.execution == d.timeframe == d.resources == ""
  {
    Draft(title, "", "", "", "", [], priority)
  }

  /** The flush guard: only a titled step is kept. */
  function Flush(drafts: seq<Draft>, d: Draft): (r: seq<Draft>)
    ensures d.title != "" ==> r == drafts + [d]
    ensures d.title == "" ==> r == drafts
  {
    if d.title != "" then drafts + [d] else drafts
  }

  /** The non-empty parts of a step, in the fixed order the action text lists them. */
  function Parts(d: Draft): seq<string> {
    (if d.title != "" then ["**" + d.title + "**"] else [])
    + (if d.description != "" then ["Description: " + d.description] else [])
    + (if d.execution != "" then ["How to Execute: " + d.execution] else [])
    + (if d.timeframe != "" then ["Timeline: " + d.timeframe] else [])
    + (if d.resources != "" then ["Resources: " + d.resources] else [])
    + (if |d.links| > 0 then ["Links: " + Join(d.links, ", ")] else [])
  }

  /** `fullAction || title || 'Action details'` */
  function ActionText(d: Draft): string {
    var full := Join(Parts(d), "\n\n");
    if full != "" then full else if d.title != "" then d.title else "Action details"
  }

  /** The step pushed for a flushed draft. */
  function StepOf(d: Draft): Step {
    Step(
      ActionText(d),
      d.priority,
      if d.timeframe != "" then d.timeframe else "TBD",
      Some(if d.resources != "" then d.resources else Join(d.links, ", ")))
  }

  /** The steps pushed for the flushed drafts, in order. */
  function StepsOf(drafts: seq<Draft>): (steps: seq<Step>)
    ensures |steps| == |drafts|
  {
    seq(|drafts|, i requires 0 <= i < |drafts| => StepOf(drafts[i]))
  }

  /** Flushing one more draft pushes its step after the others. */
  lemma StepsOfSnoc(drafts: seq<Draft>, d: Draft)
    ensures StepsOf(drafts + [d]) == StepsOf(drafts) + [StepOf(d)]
  {
    assert forall i :: 0 <= i < |drafts| ==> (drafts + [d])[i] == drafts[i];
  }

  /** The single step returned when no titled step was captured. */
  function Fallback(response: string): Step {
    Step(response, High, "Immediate", None)
  }

  /** What a line outside the capture blocks asks for. */
  datatype Directive =
    | SetGoal(goal: Option<string>)
    | SetPriority(priority: Priority)
    | NewStep(title: string)
    | OpenDescription
    | OpenExecution
    | SetTimeline(timeframe: Option<string>)
    | OpenResources
    | Ignore

  /** The chain of tests `parseFormattedTextResponse` runs on a line, first match wins. */
  function DirectiveOf(line: string): Directive {
    if Contains(line, GoalLabel) || Contains(line, GoalEmoji) then
      SetGoal(match GoalGroupFrom(line, 0) case Some(g) => Some(Trim(g)) case None => None)
    else if Contains(line, HighMarker) then SetPriority(High)
    else if Contains(line, MediumMarker) then SetPriority(Medium)
    else if Contains(line, LowMarker) then SetPriority(Low)
    else if StartsNumbered(line) then NewStep(TitleOf(line))
    else if Contains(line, DescriptionMarker) then OpenDescription
    else if Contains(line, ExecuteMarker) then OpenExecution
    else if Contains(line, TimelineMarker) then
      SetTimeline(match TimelineGroupFrom(line, 0) case Some(t) => Some(Trim(t)) case None => None)
    else if Contains(line, ResourcesMarker) then OpenResources
    else Ignore
  }

  /** Carrying out a directive. */
  function Apply(st: ScanState, d: Directive): ScanState {
    match d
    case SetGoal(g) => if g.Some? then st.(goal := g.value) else st
    case SetPriority(p) => st.(priority := p)
    case NewStep(title) => st.(drafts := Flush(st.drafts, st.draft), draft := StartDraft(st.priority, title))
    case OpenDescription => st.(mode := InDescription(""))
    case OpenExecution => st.(mode := InExecution(""))
    case SetTimeline(t) => if t.Some? then st.(draft := st.draft.(timeframe := t.value)) else st
    case OpenResources => st.(mode := InResources("", []))
    case Ignore => st
  }

  /** What a line does outside the capture blocks. */
  function Dispatch(st: ScanState, line: string): ScanState {
    Apply(st, DirectiveOf(line))
  }

  /** Which loop the scanner is in. */
  datatype Block = Outside | DescriptionBlock | ExecutionBlock | ResourcesBlock

  function Kind(mode: Mode): Block {
    match mode
    case Scanning => Outside
    case InDescription(_) => DescriptionBlock
    case InExecution(_) => ExecutionBlock
    case InResources(_, _) => ResourcesBlock
  }

  /** The line that ends a capture block; outside the blocks every line is dispatched. */
  predicate Ends(block: Block, line: string) {
    match block
    case Outside => true
    case DescriptionBlock => Contains(line, ExecuteMarker) || Contains(line, TimelineMarker)
    case ExecutionBlock => Contains(line, TimelineMarker) || Contains(line, ResourcesPrefix)
    case ResourcesBlock => Contains(line, SuccessMarker) || StartsNumbered(line)
  }

  predicate Stops(mode: Mode, line: string) {
    Ends(Kind(mode), line)
  }

  /** A line classified once: its directive and which blocks it ends. */
  datatype LineInfo = LineInfo(directive: Directive, endsDescription: bool, endsExecution: bool, endsResources: bool)

  function Info(line: string): LineInfo {
    LineInfo(DirectiveOf(line), Ends(DescriptionBlock, line), Ends(ExecutionBlock, line), Ends(ResourcesBlock, line))
  }

  /** `Ends` read off a classified line. */
  predicate Closes(block: Block, info: LineInfo) {
    match block
    case Outside => true
    case DescriptionBlock => info.endsDescription
    case ExecutionBlock => info.endsExecution
    case ResourcesBlock => info.endsResources
  }

  /** The lines classified, in order. */
  function Infos(lines: seq<string>): (infos: seq<LineInfo>)
    ensures |infos| == |lines|
  {
    seq(|lines|, j requires 0 <= j < |lines| => Info(lines[j]))
  }

  /** Each classified line is its line's classification. */
  lemma InfosAt(lines: seq<string>, i: nat)
    requires i < |lines|
    ensures Infos(lines)[i] == Info(lines[i])
  {
  }

  /** The directive recorded for a line is the line's. */
  lemma DirectiveAt(lines: seq<string>, i: nat)
    requires i < |lines|
    ensures Infos(lines)[i].directive == DirectiveOf(lines[i])
  {
    InfosAt(lines, i);
  }

  /** The block ends recorded for a line are the line's. */
  lemma ClosesAt(lines: seq<string>, i: nat, block: Block)
    requires i < |lines|
    ensures Closes(block, Infos(lines)[i]) == Ends(block, lines[i])
  {
    InfosAt(lines, i);
  }

  /** The classified lines end `block` exactly where the lines do. */
  predicate EndsMatch(block: Block, lines: seq<string>, infos: seq<LineInfo>) {
    |infos| == |lines| && forall j :: 0 <= j < |lines| ==> Closes(block, infos[j]) == Ends(block, lines[j])
  }

  lemma InfosEndsMatch(lines: seq<string>, block: Block)
    ensures EndsMatch(block, lines, Infos(lines))
  {
    forall j | 0 <= j < |lines|
      ensures Closes(block, Infos(lines)[j]) == Ends(block, lines[j])
    {
      ClosesAt(lines, j, block);
    }
  }

  /** A bullet line of a resources block: `•` or `-` first. */
  predicate IsBullet(r: string) {
    r != "" && (r[0] == '\U{2022}' || r[0] == '-')
  }

  /** A line of a description or execution block: its trimmed text, when there is any, joined on with a space. */
  function JoinLine(text: string, line: string): string {
    var r := Trim(line);
    if r != "" then AppendWithSeparator(text, " ", r) else text
  }

  /** What a resources block has gathered so far: its bullet text and the links found in it. */
  datatype Gathered = Gathered(text: string, links: seq<string>)

  /** A line of a resources block: a bullet line adds its text, joined on with "; ", and the links in it. */
  function GatherLine(gathered: Gathered, line: string): Gathered {
    var r := Trim(line);
    if IsBullet(r) then
      var clean := Trim(r[1..]);
      Gathered(AppendWithSeparator(gathered.text, "; ", clean), gathered.links + UrlsFrom(clean, 0))
    else gathered
  }

  /** What a capture block does with a line that does not end it. */
  function Absorb(mode: Mode, line: string): (r: Mode)
    ensures Kind(r) == Kind(mode)
  {
    match mode
    case Scanning => Scanning
    case InDescription(text) => InDescription(JoinLine(text, line))
    case InExecution(text) => InExecution(JoinLine(text, line))
    case InResources(text, found) =>
      var g := GatherLine(Gathered(text, found), line);
      InResources(g.text, g.links)
  }

  /** Ends a capture block, storing what it gathered into the current step. */
  function Close(st: ScanState): (r: ScanState)
    ensures r.mode == Scanning
    ensures r.goal == st.goal && r.drafts == st.drafts && r.priority == st.priority
  {
    match st.mode
    case Scanning => st
    case InDescription(text) => st.(draft := st.draft.(description := text), mode := Scanning)
    case InExecution(text) => st.(draft := st.draft.(execution := text), mode := Scanning)
    case InResources(text, found) => st.(draft := st.draft.(resources := text, links := found), mode := Scanning)
  }

  /** One line: a stop line closes the block and is then dispatched; any other line is absorbed. */
  function Next(st: ScanState, line: string): ScanState {
    if Stops(st.mode, line) then Dispatch(Close(st), line)
    else st.(mode := Absorb(st.mode, line))
  }

  function Run(st: ScanState, lines: seq<string>): ScanState
    decreases |lines|
  {
    if lines == [] then st else Next(Run(st, lines[..|lines| - 1]), lines[|lines| - 1])
  }

  /** `response.split('\n').map(line => line.trim()).filter(line => line.length > 0)` */
  function Lines(response: string): seq<string> {
    NonBlankTrimmed(Split(response, "\n"))
  }

  function NonBlankTrimmed(pieces: seq<string>): (lines: seq<string>)
    ensures forall k :: 0 <= k < |lines| ==> lines[k] != "" && IsTrimmed(lines[k])
  {
    if pieces == [] then []
    else
      var t := Trim(pieces[0]);
      TrimTrims(pieces[0]);
      (if t != "" then [t] else []) + NonBlankTrimmed(pieces[1..])
  }

  /** The steps kept by a finished scan: every flushed draft, then the last one. */
  function FinalDrafts(st: ScanState): seq<Draft> {
    Flush(Close(st).drafts, Close(st).draft)
  }

  /** The plan a finished scan returns, with the fallback step when nothing was kept. */
  function Finish(st: ScanState, response: string): Plan {
    var drafts := FinalDrafts(st);
    Plan(st.goal, if drafts == [] then [Fallback(response)] else StepsOf(drafts))
  }

  /** `parseFormattedTextResponse(response, defaultGoal)` */
  function ParseText(response: string, defaultGoal: string): Plan {
    Finish(Run(Start(defaultGoal), Lines(response)), response)
  }

  /** The drafts behind the steps of `ParseText`. */
  function ParsedDrafts(response: string, defaultGoal: string): seq<Draft> {
    FinalDrafts(Run(Start(defaultGoal), Lines(response)))
  }

  // Each fold below is split into the fold and its last step, a pair of
  // mutually recursive functions, so that a proof about the fold sees one
  // step of it at a time.

  /** The mode a capture block reaches after absorbing lines `from` up to `till`, first to last. */
  function AbsorbRange(mode: Mode, lines: seq<string>, from: nat, till: nat): (r: Mode)
    requires from <= till <= |lines|
    ensures Kind(r) == Kind(mode)
    decreases till, 0
  {
    if till == from then mode else AbsorbLast(mode, lines, from, till - 1)
  }

  /** The mode after absorbing lines `from` up to and including `i`. */
  function AbsorbLast(mode: Mode, lines: seq<string>, from: nat, i: nat): (r: Mode)
    requires from <= i < |lines|
    ensures Kind(r) == Kind(mode)
    decreases i, 1
  {
    Absorb(AbsorbRange(mode, lines, from, i), lines[i])
  }

  /** Lines `from` up to `till` of a description or execution block joined onto `text`, first to last. */
  function JoinRange(text: string, lines: seq<string>, from: nat, till: nat): string
    requires from <= till <= |lines|
    decreases till, 0
  {
    if till == from then text else JoinLast(text, lines, from, till - 1)
  }

  /** The text after joining lines `from` up to and including `i`. */
  function JoinLast(text: string, lines: seq<string>, from: nat, i: nat): string
    requires from <= i < |lines|
    decreases i, 1
  {
    JoinLine(JoinRange(text, lines, from, i), lines[i])
  }

  /** Lines `from` up to `till` of a resources block gathered onto `gathered`, first to last. */
  function GatherRange(gathered: Gathered, lines: seq<string>, from: nat, till: nat): Gathered
    requires from <= till <= |lines|
    decreases till, 0
  {
    if till == from then gathered else GatherLast(gathered, lines, from, till - 1)
  }

  /** What is gathered from lines `from` up to and including `i`. */
  function GatherLast(gathered: Gathered, lines: seq<string>, from: nat, i: nat): Gathered
    requires from <= i < |lines|
    decreases i, 1
  {
    GatherLine(GatherRange(gathered, lines, from, i), lines[i])
  }

  /** A description or execution block absorbs its lines by joining them. */
  lemma {:induction false} AbsorbRangeJoins(text: string, lines: seq<string>, from: nat, till: nat)
    requires from <= till <= |lines|
    ensures AbsorbRange(InDescription(text), lines, from, till) == InDescription(JoinRange(text, lines, from, till))
    ensures AbsorbRange(InExecution(text), lines, from, till) == InExecution(JoinRange(text, lines, from, till))
    decreases till
  {
    if from < till {
      AbsorbRangeJoins(text, lines, from, till - 1);
    }
  }

  /** A resources block absorbs its lines by gathering them. */
  lemma {:induction false} AbsorbRangeGathers(text: string, found: seq<string>, lines: seq<string>, from: nat, till: nat)
    requires from <= till <= |lines|
    ensures AbsorbRange(InResources(text, found), lines, from, till)
         == InResources(GatherRange(Gathered(text, found), lines, from, till).text, GatherRange(Gathered(text, found), lines, from, till).links)
    decreases till
  {
    if from < till {
      AbsorbRangeGathers(text, found, lines, from, till - 1);
    }
  }

  /** One more line joined onto a block's text. */
  lemma JoinOneMore(text: string, lines: seq<string>, from: nat, i: nat, j: nat)
    requires from <= i < |lines| && j == i + 1
    ensures JoinRange(text, lines, from, j) == JoinLine(JoinRange(text, lines, from, i), lines[i])
  {
  }

  /** One more line gathered into a resources block. */
  lemma GatherOneMore(gathered: Gathered, lines: seq<string>, from: nat, i: nat, j: nat)
    requires from <= i < |lines| && j == i + 1
    ensures GatherRange(gathered, lines, from, j) == GatherLine(GatherRange(gathered, lines, from, i), lines[i])
  {
  }

  /** Absorbing one more line of a block. */
  lemma AbsorbOneMore(mode: Mode, lines: seq<string>, from: nat, i: nat, j: nat)
    requires from <= i < |lines| && j == i + 1
    ensures AbsorbRange(mode, lines, from, j) == Absorb(AbsorbRange(mode, lines, from, i), lines[i])
  {
  }

  /** The index of the first line at or after `from` that ends the block, or the end of the lines. */
  function BlockEnd(block: Block, infos: seq<LineInfo>, from: nat): (stop: nat)
    requires from <= |infos|
    ensures from <= stop <= |infos|
    ensures stop < |infos| ==> Closes(block, infos[stop])
    decreases |infos| - from
  {
    if from == |infos| || Closes(block, infos[from]) then from else BlockEnd(block, infos, from + 1)
  }

  /** Past a line that does not end the block, the block still ends in the same place. */
  lemma BlockEndMoves(block: Block, infos: seq<LineInfo>, i: nat, j: nat)
    requires i < |infos| && j == i + 1 && !Closes(block, infos[i])
    ensures BlockEnd(block, infos, j) == BlockEnd(block, infos, i)
  {
  }

  /** No line before the end of a block ends it. */
  lemma {:induction false} BeforeBlockEnd(block: Block, infos: seq<LineInfo>, from: nat, j: nat)
    requires from <= |infos| && from <= j < BlockEnd(block, infos, from)
    ensures !Closes(block, infos[j])
    decreases j - from
  {
    if j > from {
      BeforeBlockEnd(block, infos, from + 1, j);
    }
  }

  /** One line of the scanner, given the line's classification. */
  function NextOn(st: ScanState, line: string, info: LineInfo): ScanState {
    if Closes(Kind(st.mode), info) then Apply(Close(st), info.directive)
    else st.(mode := Absorb(st.mode, line))
  }

  /** With the line's own classification, a step is the scanner's step. */
  lemma NextOnInfo(st: ScanState, line: string)
    ensures NextOn(st, line, Info(line)) == Next(st, line)
  {
  }

  /** The scanner over the first `n` lines, each classified in advance by `infos`. */
  function RunTo(st: ScanState, lines: seq<string>, infos: seq<LineInfo>, n: nat): ScanState
    requires |infos| == |lines| && n <= |lines|
    decreases n, 0
  {
    if n == 0 then st else RunLast(st, lines, infos, n - 1)
  }

  /** The scanner after the lines up to and including `i`. */
  function RunLast(st: ScanState, lines: seq<string>, infos: seq<LineInfo>, i: nat): ScanState
    requires |infos| == |lines| && i < |lines|
    decreases i, 1
  {
    NextOn(RunTo(st, lines, infos, i), lines[i], infos[i])
  }

  /** Classifying every line in advance changes nothing. */
  lemma {:induction false} RunToInfos(st: ScanState, lines: seq<string>, n: nat)
    requires n <= |lines|
    ensures RunTo(st, lines, Infos(lines), n) == Run(st, lines[..n])
    decreases n
  {
    if n > 0 {
      RunToInfos(st, lines, n - 1);
      var prefix := lines[..n];
      assert prefix[..|prefix| - 1] == lines[..n - 1] && prefix[|prefix| - 1] == lines[n - 1];
      InfosAt(lines, n - 1);
      NextOnInfo(Run(st, lines[..n - 1]), lines[n - 1]);
    }
  }

  /** One more line of the fold. */
  lemma RunOneMore(st: ScanState, lines: seq<string>, infos: seq<LineInfo>, i: nat, j: nat)
    requires |infos| == |lines| && i < |lines| && j == i + 1
    ensures RunTo(st, lines, infos, j) == NextOn(RunTo(st, lines, infos, i), lines[i], infos[i])
  {
  }

  /** A line inside a block is absorbed into it. */
  lemma AbsorbStep(st: ScanState, lines: seq<string>, infos: seq<LineInfo>, from: nat, here: ScanState, m0: Mode, i: nat, k: nat)
    requires |infos| == |lines| && from <= i < |lines| && k == i + 1 && !Closes(Kind(m0), infos[i])
    requires RunTo(st, lines, infos, i) == here.(mode := AbsorbRange(m0, lines, from, i))
    ensures RunTo(st, lines, infos, k) == here.(mode := AbsorbRange(m0, lines, from, k))
  {
    RunOneMore(st, lines, infos, i, k);
    AbsorbOneMore(m0, lines, from, i, k);
  }

  /** A capture block opened before line `from` absorbs every line up to the first that ends it. */
  lemma {:induction false} RunThroughBlock(st: ScanState, lines: seq<string>, infos: seq<LineInfo>, from: nat, here: ScanState, m0: Mode, k: nat)
    requires |infos| == |lines| && from <= |lines|
    requires from <= k <= BlockEnd(Kind(m0), infos, from)
    requires RunTo(st, lines, infos, from) == here.(mode := m0)
    ensures RunTo(st, lines, infos, k) == here.(mode := AbsorbRange(m0, lines, from, k))
    decreases k - from
  {
    if k > from {
      RunThroughBlock(st, lines, infos, from, here, m0, k - 1);
      BeforeBlockEnd(Kind(m0), infos, from, k - 1);
      AbsorbStep(st, lines, infos, from, here, m0, k - 1, k);
    }
  }

  /**
   * One pass of `parseFormattedTextResponse`'s index loop from line `i`: a line outside the
   * blocks is dispatched and the loop goes on at the next line; a line that
   * opens a block is followed by every line up to the one that ends the
   * block, what the block gathered is stored, and the loop resumes there.
   */
  function ScanStep(st: ScanState, lines: seq<string>, infos: seq<LineInfo>, i: nat): (r: (ScanState, nat))
    requires |infos| == |lines| && i < |lines|
    ensures i < r.1 <= |lines|
  {
    var entered := Apply(st, infos[i].directive);
    if entered.mode == Scanning then (entered, i + 1)
    else
      var stop := BlockEnd(Kind(entered.mode), infos, i + 1);
      (Close(entered.(mode := AbsorbRange(entered.mode, lines, i + 1, stop))), stop)
  }

  /** The state and the line index after `t` passes of the index loop; both stay put once the lines run out. */
  function Scan(start: ScanState, lines: seq<string>, infos: seq<LineInfo>, t: nat): (r: (ScanState, nat))
    requires |infos| == |lines|
    ensures r.1 <= |lines| && (t <= r.1 || r.1 == |lines|)
    decreases t
  {
    if t == 0 then (start, 0)
    else
      var (st, i) := Scan(start, lines, infos, t - 1);
      if i == |lines| then (st, i) else ScanStep(st, lines, infos, i)
  }

  /** One more pass of the index loop. */
  lemma ScanOneMore(start: ScanState, lines: seq<string>, infos: seq<LineInfo>, t: nat, u: nat, st: ScanState, i: nat)
    requires |infos| == |lines| && Scan(start, lines, infos, t) == (st, i) && i < |lines| && u == t + 1
    ensures Scan(start, lines, infos, u) == ScanStep(st, lines, infos, i)
  {
  }

  /** A pass over a line outside the blocks. */
  lemma StepOverLine(st: ScanState, lines: seq<string>, infos: seq<LineInfo>, i: nat, j: nat, next: ScanState)
    requires |infos| == |lines| && i < |lines| && j == i + 1
    requires Apply(st, infos[i].directive) == next && next.mode == Scanning
    ensures ScanStep(st, lines, infos, i) == (next, j)
  {
  }

  /** A pass over a block: what it gathered is stored and the loop resumes at the line that ends it. */
  lemma StepOverBlock(st: ScanState, lines: seq<string>, infos: seq<LineInfo>, i: nat, m0: Mode, stop: nat, m: Mode)
    requires |infos| == |lines| && i < |lines| && Apply(st, infos[i].directive) == st.(mode := m0) && m0 != Scanning
    requires stop == BlockEnd(Kind(m0), infos, i + 1) && m == AbsorbRange(m0, lines, i + 1, stop)
    ensures ScanStep(st, lines, infos, i) == (Close(st.(mode := m)), stop)
  {
  }

  /** Once the lines have run out, further passes change nothing. */
  lemma {:induction false} ScanStays(start: ScanState, lines: seq<string>, infos: seq<LineInfo>, t: nat, u: nat)
    requires |infos| == |lines| && t <= u && Scan(start, lines, infos, t).1 == |lines|
    ensures Scan(start, lines, infos, u) == Scan(start, lines, infos, t)
    decreases u - t
  {
    if u > t {
      ScanStays(start, lines, infos, t, u - 1);
    }
  }

  /**
   * The index loop is in step with the scanner at `r`: its state is the
   * scanner's, closed, over the lines before its index, and the line at its
   * index is one the scanner dispatches.
   */
  predicate Follows(start: ScanState, lines: seq<string>, infos: seq<LineInfo>, r: (ScanState, nat))
    requires |infos| == |lines|
  {
    r.1 <= |lines|
    && r.0 == Close(RunTo(start, lines, infos, r.1))
    && (r.1 < |lines| ==> Closes(Kind(RunTo(start, lines, infos, r.1).mode), infos[r.1]))
  }

  /** After a line that opens no block both loops go on at the next line. */
  lemma FollowLine(start: ScanState, lines: seq<string>, infos: seq<LineInfo>, k: nat, entered: ScanState)
    requires |infos| == |lines| && k < |lines|
    requires RunTo(start, lines, infos, k + 1) == entered && entered.mode == Scanning
    ensures Follows(start, lines, infos, (entered, k + 1))
  {
  }

  /** After a block both loops stand at the line that ends it. */
  lemma FollowBlock(start: ScanState, lines: seq<string>, infos: seq<LineInfo>, k: nat, entered: ScanState, stop: nat)
    requires |infos| == |lines| && k < |lines|
    requires RunTo(start, lines, infos, k + 1) == entered && entered.mode != Scanning
    requires stop == BlockEnd(Kind(entered.mode), infos, k + 1)
    ensures Follows(start, lines, infos, (Close(entered.(mode := AbsorbRange(entered.mode, lines, k + 1, stop))), stop))
  {
    RunThroughBlock(start, lines, infos, k + 1, entered, entered.mode, stop);
  }

  /** One pass of the index loop keeps it in step with the scanner. */
  lemma FollowStep(start: ScanState, lines: seq<string>, infos: seq<LineInfo>, st: ScanState, k: nat)
    requires |infos| == |lines| && k < |lines| && Follows(start, lines, infos, (st, k))
    ensures Follows(start, lines, infos, ScanStep(st, lines, infos, k))
  {
    RunOneMore(start, lines, infos, k, k + 1);
    var entered := Apply(st, infos[k].directive);
    if entered.mode == Scanning {
      FollowLine(start, lines, infos, k, entered);
    } else {
      FollowBlock(start, lines, infos, k, entered, BlockEnd(Kind(entered.mode), infos, k + 1));
    }
  }

  /** The pass after one in step is in step too. */
  lemma ScanPassFollows(start: ScanState, lines: seq<string>, infos: seq<LineInfo>, t: nat)
    requires |infos| == |lines| && 0 < t && Follows(start, lines, infos, Scan(start, lines, infos, t - 1)) == true
    ensures Follows(start, lines, infos, Scan(start, lines, infos, t)) == true
  {
    var r := Scan(start, lines, infos, t - 1);
    if r.1 < |lines| {
      FollowStep(start, lines, infos, r.0, r.1);
    }
  }

  /** Every pass of the index loop keeps it in step with the scanner. */
  lemma {:induction false} ScanFollowsRun(start: ScanState, lines: seq<string>, infos: seq<LineInfo>, t: nat)
    requires |infos| == |lines| && start.mode == Scanning
    ensures Follows(start, lines, infos, Scan(start, lines, infos, t)) == true
    decreases t
  {
    if t > 0 {
      ScanFollowsRun(start, lines, infos, t - 1);
      ScanPassFollows(start, lines, infos, t);
    }
  }

  /** A description block, read by the scanner, fills in the draft's description. */
  lemma OverDescription(st: ScanState, lines: seq<string>, infos: seq<LineInfo>, at: nat, stop: nat, description: string)
    requires |infos| == |lines| && at < |lines| && st.mode == Scanning && infos[at].directive == OpenDescription
    requires stop == BlockEnd(DescriptionBlock, infos, at + 1) && description == JoinRange("", lines, at + 1, stop)
    ensures ScanStep(st, lines, infos, at) == (st.(draft := st.draft.(description := description)), stop)
  {
    AbsorbRangeJoins("", lines, at + 1, stop);
    StepOverBlock(st, lines, infos, at, InDescription(""), stop, InDescription(description));
  }

  /** An execution block fills in the draft's execution text. */
  lemma OverExecution(st: ScanState, lines: seq<string>, infos: seq<LineInfo>, at: nat, stop: nat, execution: string)
    requires |infos| == |lines| && at < |lines| && st.mode == Scanning && infos[at].directive == OpenExecution
    requires stop == BlockEnd(ExecutionBlock, infos, at + 1) && execution == JoinRange("", lines, at + 1, stop)
    ensures ScanStep(st, lines, infos, at) == (st.(draft := st.draft.(execution := execution)), stop)
  {
    AbsorbRangeJoins("", lines, at + 1, stop);
    StepOverBlock(st, lines, infos, at, InExecution(""), stop, InExecution(execution));
  }

  /** A resources block fills in the draft's resources and links. */
  lemma OverResources(st: ScanState, lines: seq<string>, infos: seq<LineInfo>, at: nat, stop: nat, resources: string, links: seq<string>)
    requires |infos| == |lines| && at < |lines| && st.mode == Scanning && infos[at].directive == OpenResources
    requires stop == BlockEnd(ResourcesBlock, infos, at + 1) && Gathered(resources, links) == GatherRange(Gathered("", []), lines, at + 1, stop)
    ensures ScanStep(st, lines, infos, at) == (st.(draft := st.draft.(resources := resources, links := links)), stop)
  {
    AbsorbRangeGathers("", [], lines, at + 1, stop);
    StepOverBlock(st, lines, infos, at, InResources("", []), stop, InResources(resources, links));
  }

  /** The index loop ends where the line-at-a-time scanner does. */
  lemma ScanMatchesRun(start: ScanState, lines: seq<string>)
    requires start.mode == Scanning
    ensures Scan(start, lines, Infos(lines), |lines|) == (Close(Run(start, lines)), |lines|)
  {
    var infos := Infos(lines);
    ScanFollowsRun(start, lines, infos, |lines|);
    RunToInfos(start, lines, |lines|);
    assert lines[..|lines|] == lines;
  }

  // The scanner as `parseFormattedTextResponse` writes it ---------------------

  /** The description block: the lines after its marker, joined with single spaces, up to an execution or timeline marker. */
  method CaptureDescription(lines: seq<string>, at: nat, ghost infos: seq<LineInfo>)
    returns (description: string, stop: nat)
    requires EndsMatch(DescriptionBlock, lines, infos) && at < |lines|
    ensures at < stop <= |lines| && stop == BlockEnd(DescriptionBlock, infos, at + 1)
    ensures description == JoinRange("", lines, at + 1, stop)
  {
    description := "";
    var i := at + 1;
    ghost var end := BlockEnd(DescriptionBlock, infos, at + 1);
    while i < |lines| && !(Contains(lines[i], ExecuteMarker) || Contains(lines[i], TimelineMarker))
      invariant at + 1 <= i <= end
      invariant BlockEnd(DescriptionBlock, infos, i) == end
      invariant description == JoinRange("", lines, at + 1, i)
      decreases |lines| - i
    {
      ghost var prev := i;
      if Trim(lines[i]) != "" {
        description := AppendWithSeparator(description, " ", Trim(lines[i]));
      }
      i := i + 1;
      JoinOneMore("", lines, at + 1, prev, i);
      BlockEndMoves(DescriptionBlock, infos, prev, i);
    }
    stop := i;
  }

  /** The execution block: the lines after its marker, joined with single spaces, up to a timeline or resources marker. */
  method CaptureExecution(lines: seq<string>, at: nat, ghost infos: seq<LineInfo>)
    returns (execution: string, stop: nat)
    requires EndsMatch(ExecutionBlock, lines, infos) && at < |lines|
    ensures at < stop <= |lines| && stop == BlockEnd(ExecutionBlock, infos, at + 1)
    ensures execution == JoinRange("", lines, at + 1, stop)
  {
    execution := "";
    var i := at + 1;
    ghost var end := BlockEnd(ExecutionBlock, infos, at + 1);
    while i < |lines| && !(Contains(lines[i], TimelineMarker) || Contains(lines[i], ResourcesPrefix))
      invariant at + 1 <= i <= end
      invariant BlockEnd(ExecutionBlock, infos, i) == end
      invariant execution == JoinRange("", lines, at + 1, i)
      decreases |lines| - i
    {
      ghost var prev := i;
      if Trim(lines[i]) != "" {
        execution := AppendWithSeparator(execution, " ", Trim(lines[i]));
      }
      i := i + 1;
      JoinOneMore("", lines, at + 1, prev, i);
      BlockEndMoves(ExecutionBlock, infos, prev, i);
    }
    stop := i;
  }

  /** A line that does not end the resources block leaves the block's end where it was. */
  lemma ResourcesGoOn(lines: seq<string>, infos: seq<LineInfo>, i: nat, j: nat)
    requires EndsMatch(ResourcesBlock, lines, infos) && i < |lines| && j == i + 1
    requires !(Contains(lines[i], SuccessMarker) || StartsNumbered(lines[i]))
    ensures BlockEnd(ResourcesBlock, infos, j) == BlockEnd(ResourcesBlock, infos, i)
  {
    assert Closes(ResourcesBlock, infos[i]) == Ends(ResourcesBlock, lines[i]);
    BlockEndMoves(ResourcesBlock, infos, i, j);
  }

  /**
   * Line `i` of a resources block whose lines from `from` on have been
   * gathered: a bullet's text is appended with "; " and its links collected.
   */
  method GatherResource(lines: seq<string>, from: nat, i: nat, resources0: string, links0: seq<string>)
    returns (resources: string, links: seq<string>)
    requires from <= i < |lines| && Gathered(resources0, links0) == GatherRange(Gathered("", []), lines, from, i)
    ensures Gathered(resources, links) == GatherRange(Gathered("", []), lines, from, i + 1)
  {
    resources, links := resources0, links0;
    var resourceLine := Trim(lines[i]);
    if IsBullet(resourceLine) {
      var cleanResource := Trim(resourceLine[1..]);
      resources := AppendWithSeparator(resources, "; ", cleanResource);
      links := links + UrlsFrom(cleanResource, 0);
    }
    GatherOneMore(Gathered("", []), lines, from, i, i + 1);
  }

  /**
   * The resources block: bullet lines joined with "; " and the links found in
   * them, up to a success-criteria marker or a numbered line.
   */
  method CaptureResources(lines: seq<string>, at: nat, ghost infos: seq<LineInfo>)
    returns (resources: string, links: seq<string>, stop: nat)
    requires EndsMatch(ResourcesBlock, lines, infos) && at < |lines|
    ensures at < stop <= |lines| && stop == BlockEnd(ResourcesBlock, infos, at + 1)
    ensures Gathered(resources, links) == GatherRange(Gathered("", []), lines, at + 1, stop)
  {
    resources := "";
    links := [];
    var i := at + 1;
    ghost var end := BlockEnd(ResourcesBlock, infos, at + 1);
    while i < |lines| && !(Contains(lines[i], SuccessMarker) || StartsNumbered(lines[i]))
      invariant at + 1 <= i <= end
      invariant BlockEnd(ResourcesBlock, infos, i) == end
      invariant Gathered(resources, links) == GatherRange(Gathered("", []), lines, at + 1, i)
      decreases |lines| - i
    {
      resources, links := GatherResource(lines, at + 1, i, resources, links);
      ResourcesGoOn(lines, infos, i, i + 1);
      i := i + 1;
    }
    stop := i;
  }

  /**
   * One pass of the scanner's index loop from line `at`: a marker line is
   * dispatched, and a block marker runs ahead to the line that ends the
   * block, which the next pass dispatches.
   */
  method ScanPass(lines: seq<string>, at: nat, ghost infos: seq<LineInfo>,
                  goal0: string, ghost drafts0: seq<Draft>, steps0: seq<Step>, priority0: Priority, step0: Draft)
    returns (goal: string, ghost drafts: seq<Draft>, steps: seq<Step>, priority: Priority, step: Draft, next: nat)
    requires infos == Infos(lines) && at < |lines| && steps0 == StepsOf(drafts0)
    ensures steps == StepsOf(drafts)
    ensures ScanStep(ScanState(goal0, drafts0, priority0, step0, Scanning), lines, infos, at)
         == (ScanState(goal, drafts, priority, step, Scanning), next)
  {
    goal, drafts, steps, priority, step := goal0, drafts0, steps0, priority0, step0;
    ghost var here := ScanState(goal0, drafts0, priority0, step0, Scanning);
    var line := lines[at];
    DirectiveAt(lines, at);
    if Contains(line, GoalLabel) || Contains(line, GoalEmoji) {
      var goalMatch := GoalGroupFrom(line, 0);
      if goalMatch.Some? {
        goal := Trim(goalMatch.value);
      }
      next := at + 1;
      StepOverLine(here, lines, infos, at, next, here.(goal := goal));
    } else if Contains(line, HighMarker) {
      priority := High;
      next := at + 1;
      StepOverLine(here, lines, infos, at, next, here.(priority := High));
    } else if Contains(line, MediumMarker) {
      priority := Medium;
      next := at + 1;
      StepOverLine(here, lines, infos, at, next, here.(priority := Medium));
    } else if Contains(line, LowMarker) {
      priority := Low;
      next := at + 1;
      StepOverLine(here, lines, infos, at, next, here.(priority := Low));
    } else if StartsNumbered(line) {
      if step.title != "" {
        StepsOfSnoc(drafts, step);
        steps := steps + [StepOf(step)];
        drafts := drafts + [step];
      }
      step := StartDraft(priority, TitleOf(line));
      next := at + 1;
      StepOverLine(here, lines, infos, at, next, here.(drafts := drafts, draft := step));
    } else {
      goal, drafts, steps, priority, step, next := ScanBlockPass(lines, at, infos, goal0, drafts0, steps0, priority0, step0);
    }
  }

  /** The rest of a pass, for a line that sets no goal or priority and starts no step. */
  method ScanBlockPass(lines: seq<string>, at: nat, ghost infos: seq<LineInfo>,
                       goal0: string, ghost drafts0: seq<Draft>, steps0: seq<Step>, priority0: Priority, step0: Draft)
    returns (goal: string, ghost drafts: seq<Draft>, steps: seq<Step>, priority: Priority, step: Draft, next: nat)
    requires infos == Infos(lines) && at < |lines| && steps0 == StepsOf(drafts0)
    requires !(Contains(lines[at], GoalLabel) || Contains(lines[at], GoalEmoji))
    requires !Contains(lines[at], HighMarker) && !Contains(lines[at], MediumMarker) && !Contains(lines[at], LowMarker)
    requires !StartsNumbered(lines[at])
    ensures steps == StepsOf(drafts)
    ensures ScanStep(ScanState(goal0, drafts0, priority0, step0, Scanning), lines, infos, at)
         == (ScanState(goal, drafts, priority, step, Scanning), next)
  {
    goal, drafts, steps, priority, step := goal0, drafts0, steps0, priority0, step0;
    ghost var here := ScanState(goal0, drafts0, priority0, step0, Scanning);
    var line := lines[at];
    DirectiveAt(lines, at);
    if Contains(line, DescriptionMarker) {
      InfosEndsMatch(lines, DescriptionBlock);
      var description;
      description, next := CaptureDescription(lines, at, infos);
      OverDescription(here, lines, infos, at, next, description);
      step := step.(description := description);
    } else if Contains(line, ExecuteMarker) {
      InfosEndsMatch(lines, ExecutionBlock);
      var execution;
      execution, next := CaptureExecution(lines, at, infos);
      OverExecution(here, lines, infos, at, next, execution);
      step := step.(execution := execution);
    } else {
      goal, drafts, steps, priority, step, next := ScanLatePass(lines, at, infos, goal0, drafts0, steps0, priority0, step0);
    }
  }

  /** The rest of a pass, for a line that opens no description or execution block either. */
  method ScanLatePass(lines: seq<string>, at: nat, ghost infos: seq<LineInfo>,
                      goal0: string, ghost drafts0: seq<Draft>, steps0: seq<Step>, priority0: Priority, step0: Draft)
    returns (goal: string, ghost drafts: seq<Draft>, steps: seq<Step>, priority: Priority, step: Draft, next: nat)
    requires infos == Infos(lines) && at < |lines| && steps0 == StepsOf(drafts0)
    requires !(Contains(lines[at], GoalLabel) || Contains(lines[at], GoalEmoji))
    requires !Contains(lines[at], HighMarker) && !Contains(lines[at], MediumMarker) && !Contains(lines[at], LowMarker)
    requires !StartsNumbered(lines[at])
    requires !Contains(lines[at], DescriptionMarker) && !Contains(lines[at], ExecuteMarker)
    ensures steps == StepsOf(drafts)
    ensures ScanStep(ScanState(goal0, drafts0, priority0, step0, Scanning), lines, infos, at)
         == (ScanState(goal, drafts, priority, step, Scanning), next)
  {
    goal, drafts, steps, priority, step := goal0, drafts0, steps0, priority0, step0;
    ghost var here := ScanState(goal0, drafts0, priority0, step0, Scanning);
    var line := lines[at];
    DirectiveAt(lines, at);
    if Contains(line, TimelineMarker) {
      var timelineMatch := TimelineGroupFrom(line, 0);
      if timelineMatch.Some? {
        step := step.(timeframe := Trim(timelineMatch.value));
      }
      next := at + 1;
      StepOverLine(here, lines, infos, at, next, here.(draft := step));
    } else if Contains(line, ResourcesMarker) {
      InfosEndsMatch(lines, ResourcesBlock);
      var resources, links;
      resources, links, next := CaptureResources(lines, at, infos);
      OverResources(here, lines, infos, at, next, resources, links);
      step := step.(resources := resources, links := links);
    } else {
      next := at + 1;
      StepOverLine(here, lines, infos, at, next, here);
    }
  }

  /**
   * The scanner: an index loop over the lines. `parseFormattedTextResponse`'s capture blocks
   * run ahead to their stop line and step back one before the loop's own
   * increment; here a pass returns the stop line's index directly.
   */
  method ScanLines(lines: seq<string>, defaultGoal: string) returns (goal: string, steps: seq<Step>)
    ensures goal == Run(Start(defaultGoal), lines).goal
    ensures steps == StepsOf(FinalDrafts(Run(Start(defaultGoal), lines)))
  {
    goal := defaultGoal;
    steps := [];
    var currentPriority := Medium;
    var currentStep := NoDraft;
    ghost var drafts: seq<Draft> := [];
    ghost var start := Start(defaultGoal);
    ghost var infos := Infos(lines);
    ghost var t: nat := 0;

    var i := 0;
    while i < |lines|
      invariant t <= i <= |lines|
      invariant steps == StepsOf(drafts)
      invariant Scan(start, lines, infos, t) == (ScanState(goal, drafts, currentPriority, currentStep, Scanning), i)
      decreases |lines| - i
    {
      ghost var before := t;
      t := t + 1;
      ScanOneMore(start, lines, infos, before, t, ScanState(goal, drafts, currentPriority, currentStep, Scanning), i);
      goal, drafts, steps, currentPriority, currentStep, i := ScanPass(lines, i, infos, goal, drafts, steps, currentPriority, currentStep);
    }
    ScanStays(start, lines, infos, t, |lines|);
    ScanMatchesRun(start, lines);

    if currentStep.title != "" {
      StepsOfSnoc(drafts, currentStep);
      steps := steps + [StepOf(currentStep)];
      drafts := drafts + [currentStep];
    }
  }

  /** `parseFormattedTextResponse`: split the reply into trimmed non-blank lines, scan them, and fall back to one step. */
  method ParseFormattedTextResponse(response: string, defaultGoal: string) returns (plan: Plan)
    ensures plan == ParseText(response, defaultGoal)
  {
    var lines := Lines(response);
    var goal, steps := ScanLines(lines, defaultGoal);
    if |steps| == 0 {
      steps := [Fallback(response)];
    }
    plan := Plan(goal, steps);
  }
}
