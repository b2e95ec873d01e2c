/**
 * What the text parser promises, proved about its line-at-a-time
 * specification `Run` / `ParseText`: the fallback step, which numbered
 * lines become steps and in what order, the priority and goal in force,
 * and the JSON-or-text dispatch in front of the parser.
 */
module ActionPlanProperties {
  import opened Wrappers
  import opened Text
  import opened Patterns
  import opened ActionPlanParser

  // The chain of tests on a line -----------------------------------------------

  /** A line the goal test takes: it holds `STAGE GOAL:` (case as written) or the target emoji. */
  predicate GoalLine(line: string) {
    Contains(line, GoalLabel) || Contains(line, GoalEmoji)
  }

  /** A line holding any of the three priority markers. */
  predicate PriorityLine(line: string) {
    Contains(line, HighMarker) || Contains(line, MediumMarker) || Contains(line, LowMarker)
  }

  /** The goal test comes first: a goal line only ever sets the goal. */
  lemma GoalTestFirst(line: string)
    ensures DirectiveOf(line).SetGoal? <==> GoalLine(line)
  {
  }

  /** HIGH, then MEDIUM, then LOW PRIORITY are tested in that order, after the goal test. */
  lemma PriorityTestOrder(line: string)
    ensures DirectiveOf(line) == SetPriority(High) <==> !GoalLine(line) && Contains(line, HighMarker)
    ensures DirectiveOf(line) == SetPriority(Medium) <==>
              !GoalLine(line) && !Contains(line, HighMarker) && Contains(line, MediumMarker)
    ensures DirectiveOf(line) == SetPriority(Low) <==>
              !GoalLine(line) && !Contains(line, HighMarker) && !Contains(line, MediumMarker) && Contains(line, LowMarker)
  {
  }

  /**
   * A numbered line starts a step unless a goal or priority marker on it
   * was tested first; the step's title is the line's trimmed bold group,
   * or "" when it has none.
   */
  lemma NumberedLineStartsStep(line: string)
    ensures DirectiveOf(line).NewStep? <==> !GoalLine(line) && !PriorityLine(line) && StartsNumbered(line)
    ensures DirectiveOf(line).NewStep? ==> DirectiveOf(line).title == TitleOf(line)
  {
  }

  // One line -------------------------------------------------------------------

  /**
   * What one line does to the step list, the current step, the priority
   * register and the goal: only a numbered line read by the outer loop
   * flushes the current step (with what an open capture block gathered)
   * and opens a new one under the priority in
   * force; only a priority line read by the outer loop sets the register;
   * only a goal line with a group sets the goal.
   */
  lemma NextEffects(st: ScanState, line: string)
    ensures Stops(st.mode, line) && DirectiveOf(line).NewStep? ==>
              && Next(st, line).drafts == Flush(st.drafts, Close(st).draft)
              && Next(st, line).draft == StartDraft(st.priority, DirectiveOf(line).title)
    ensures !(Stops(st.mode, line) && DirectiveOf(line).NewStep?) ==>
              && Next(st, line).drafts == st.drafts
              && Next(st, line).draft.title == st.draft.title
              && Next(st, line).draft.priority == st.draft.priority
    ensures Next(st, line).priority ==
              if Stops(st.mode, line) && DirectiveOf(line).SetPriority? then DirectiveOf(line).priority else st.priority
    ensures Next(st, line).goal ==
              if Stops(st.mode, line) && DirectiveOf(line).SetGoal? && DirectiveOf(line).goal.Some?
              then DirectiveOf(line).goal.value else st.goal
  {
    NextOnInfo(st, line);
    NextOnEffects(st, line, Info(line));
  }

  /** `NextEffects` for a step on a classified line. */
  lemma NextOnEffects(st: ScanState, line: string, info: LineInfo)
    ensures Closes(Kind(st.mode), info) && info.directive.NewStep? ==>
              && NextOn(st, line, info).drafts == Flush(st.drafts, Close(st).draft)
              && NextOn(st, line, info).draft == StartDraft(st.priority, info.directive.title)
    ensures !(Closes(Kind(st.mode), info) && info.directive.NewStep?) ==>
              && NextOn(st, line, info).drafts == st.drafts
              && NextOn(st, line, info).draft.title == st.draft.title
              && NextOn(st, line, info).draft.priority == st.draft.priority
    ensures NextOn(st, line, info).priority ==
              if Closes(Kind(st.mode), info) && info.directive.SetPriority? then info.directive.priority else st.priority
    ensures NextOn(st, line, info).goal ==
              if Closes(Kind(st.mode), info) && info.directive.SetGoal? && info.directive.goal.Some?
              then info.directive.goal.value else st.goal
  {
    if Closes(Kind(st.mode), info) {
      assert NextOn(st, line, info) == Apply(Close(st), info.directive);
    }
  }

  /** The priority register after one line. */
  lemma NextOnPriority(st: ScanState, line: string, info: LineInfo)
    ensures NextOn(st, line, info).priority ==
              if Closes(Kind(st.mode), info) && info.directive.SetPriority? then info.directive.priority else st.priority
  {
    NextOnEffects(st, line, info);
  }

  /** The goal after one line. */
  lemma NextOnGoal(st: ScanState, line: string, info: LineInfo)
    ensures NextOn(st, line, info).goal ==
              if Closes(Kind(st.mode), info) && info.directive.SetGoal? && info.directive.goal.Some?
              then info.directive.goal.value else st.goal
  {
    NextOnEffects(st, line, info);
  }

  // Which numbered lines become steps ------------------------------------------

  /**
   * Line `k` is a numbered line read by the outer loop (not swallowed by a
   * capture block) and it carries a non-empty bold title.
   */
  predicate TitledStepRead(st0: ScanState, lines: seq<string>, k: nat)
    requires k < |lines|
  {
    var st := Run(st0, lines[..k]);
    Stops(st.mode, lines[k]) && DirectiveOf(lines[k]).NewStep? && TitleOf(lines[k]) != ""
  }

  /** The same, read off the classified lines. */
  predicate TitledStepAt(st0: ScanState, lines: seq<string>, infos: seq<LineInfo>, k: nat)
    requires |infos| == |lines| && k < |lines|
  {
    var st := RunTo(st0, lines, infos, k);
    Closes(Kind(st.mode), infos[k]) && infos[k].directive.NewStep? && infos[k].directive.title != ""
  }

  /** The title a classified line opens a step with, "" when it opens none. */
  function TitleIn(info: LineInfo): string {
    if info.directive.NewStep? then info.directive.title else ""
  }

  /** For each line, whether it starts a titled step. */
  function TitledMarks(st0: ScanState, lines: seq<string>, infos: seq<LineInfo>): (marks: seq<bool>)
    requires |infos| == |lines|
    ensures |marks| == |lines|
  {
    seq(|lines|, k requires 0 <= k < |lines| => TitledStepAt(st0, lines, infos, k))
  }

  /** The positions below `n` holding `true`, in increasing order. */
  function Marked(marks: seq<bool>, n: nat): (ks: seq<nat>)
    requires n <= |marks|
    ensures forall j :: 0 <= j < |ks| ==> ks[j] < n
  {
    if n == 0 then []
    else Marked(marks, n - 1) + if marks[n - 1] then [n - 1] else []
  }

  /** `Marked` lists exactly the marked positions, each once, in increasing order. */
  lemma {:induction false} MarkedExact(marks: seq<bool>, n: nat)
    requires n <= |marks|
    ensures forall k: nat :: k in Marked(marks, n) <==> k < n && marks[k]
    ensures forall i, j :: 0 <= i < j < |Marked(marks, n)| ==> Marked(marks, n)[i] < Marked(marks, n)[j]
  {
    if n > 0 {
      MarkedExact(marks, n - 1);
    }
  }

  /** The steps a scan keeps so far: every flushed one and the current one if it has a title. */
  function Kept(st: ScanState): seq<Draft> {
    Flush(st.drafts, st.draft)
  }

  /**
   * The kept steps correspond one to one, in order, with the lines below
   * `n` that start a titled step: each has that line's title and the
   * priority in force just before that line.
   */
  predicate KeptFromLines(st0: ScanState, lines: seq<string>, infos: seq<LineInfo>, n: nat, kept: seq<Draft>)
    requires |infos| == |lines| && n <= |lines|
  {
    var ks := Marked(TitledMarks(st0, lines, infos), n);
    && |kept| == |ks|
    && forall j :: 0 <= j < |ks| ==>
         && kept[j].title == TitleIn(infos[ks[j]])
         && kept[j].priority == RunTo(st0, lines, infos, ks[j]).priority
  }

  /** A line that starts a titled step adds one kept step. */
  lemma KeptSnoc(st0: ScanState, lines: seq<string>, infos: seq<LineInfo>, n: nat, kept: seq<Draft>, d: Draft)
    requires |infos| == |lines| && 0 < n <= |lines|
    requires KeptFromLines(st0, lines, infos, n - 1, kept)
    requires TitledStepAt(st0, lines, infos, n - 1)
    requires d.title == TitleIn(infos[n - 1]) && d.priority == RunTo(st0, lines, infos, n - 1).priority
    ensures KeptFromLines(st0, lines, infos, n, kept + [d])
  {
    assert TitledMarks(st0, lines, infos)[n - 1];
  }

  /** Any other line keeps the kept steps' titles and priorities. */
  lemma KeptSame(st0: ScanState, lines: seq<string>, infos: seq<LineInfo>, n: nat, kept: seq<Draft>, kept': seq<Draft>)
    requires |infos| == |lines| && 0 < n <= |lines|
    requires KeptFromLines(st0, lines, infos, n - 1, kept)
    requires !TitledStepAt(st0, lines, infos, n - 1)
    requires |kept'| == |kept|
    requires forall j :: 0 <= j < |kept| ==> kept'[j].title == kept[j].title && kept'[j].priority == kept[j].priority
    ensures KeptFromLines(st0, lines, infos, n, kept')
  {
    assert !TitledMarks(st0, lines, infos)[n - 1];
  }

  /** One line keeps the correspondence. */
  lemma KeptStep(st0: ScanState, lines: seq<string>, infos: seq<LineInfo>, n: nat, st: ScanState)
    requires |infos| == |lines| && 0 < n <= |lines|
    requires st == RunTo(st0, lines, infos, n - 1)
    requires KeptFromLines(st0, lines, infos, n - 1, Kept(st))
    ensures KeptFromLines(st0, lines, infos, n, Kept(RunTo(st0, lines, infos, n)))
  {
    RunOneMore(st0, lines, infos, n - 1, n);
    if Closes(Kind(st.mode), infos[n - 1]) && infos[n - 1].directive.NewStep? {
      KeptOnNewStep(st0, lines, infos, n, st);
    } else {
      KeptOnOtherLine(st0, lines, infos, n, st);
    }
  }

  /** A line that closes the open block and starts a step keeps the correspondence. */
  lemma KeptOnNewStep(st0: ScanState, lines: seq<string>, infos: seq<LineInfo>, n: nat, st: ScanState)
    requires |infos| == |lines| && 0 < n <= |lines|
    requires st == RunTo(st0, lines, infos, n - 1)
    requires KeptFromLines(st0, lines, infos, n - 1, Kept(st))
    requires Closes(Kind(st.mode), infos[n - 1]) && infos[n - 1].directive.NewStep?
    ensures KeptFromLines(st0, lines, infos, n, Kept(NextOn(st, lines[n - 1], infos[n - 1])))
  {
    var line, info := lines[n - 1], infos[n - 1];
    var next := NextOn(st, line, info);
    NextOnEffects(st, line, info);
    assert next.drafts == Kept(Close(st));
    if info.directive.title != "" {
      KeptSnoc(st0, lines, infos, n, Kept(st), next.draft);
    } else {
      KeptSame(st0, lines, infos, n, Kept(st), Kept(next));
    }
  }

  /** Any other line keeps the correspondence. */
  lemma KeptOnOtherLine(st0: ScanState, lines: seq<string>, infos: seq<LineInfo>, n: nat, st: ScanState)
    requires |infos| == |lines| && 0 < n <= |lines|
    requires st == RunTo(st0, lines, infos, n - 1)
    requires KeptFromLines(st0, lines, infos, n - 1, Kept(st))
    requires !(Closes(Kind(st.mode), infos[n - 1]) && infos[n - 1].directive.NewStep?)
    ensures KeptFromLines(st0, lines, infos, n, Kept(NextOn(st, lines[n - 1], infos[n - 1])))
  {
    var line, info := lines[n - 1], infos[n - 1];
    NextOnEffects(st, line, info);
    KeptSame(st0, lines, infos, n, Kept(st), Kept(NextOn(st, line, info)));
  }

  lemma {:induction false} RunKeepsTitledLines(st0: ScanState, lines: seq<string>, infos: seq<LineInfo>, n: nat)
    requires st0.drafts == [] && st0.draft.title == ""
    requires |infos| == |lines| && n <= |lines|
    ensures KeptFromLines(st0, lines, infos, n, Kept(RunTo(st0, lines, infos, n)))
  {
    if n > 0 {
      RunKeepsTitledLines(st0, lines, infos, n - 1);
      KeptStep(st0, lines, infos, n, RunTo(st0, lines, infos, n - 1));
    }
  }

  /** For each line, whether it starts a titled step, read off the scanner itself. */
  function ReadMarks(st0: ScanState, lines: seq<string>): (marks: seq<bool>)
    ensures |marks| == |lines|
  {
    seq(|lines|, k requires 0 <= k < |lines| => TitledStepRead(st0, lines, k))
  }

  /** The indices of the lines that start a titled step, in source order. */
  function StepLines(st0: ScanState, lines: seq<string>): seq<nat> {
    Marked(ReadMarks(st0, lines), |lines|)
  }

  /** Classifying the lines in advance marks the same lines. */
  lemma MarksAgree(st0: ScanState, lines: seq<string>)
    ensures TitledMarks(st0, lines, Infos(lines)) == ReadMarks(st0, lines)
  {
    forall k | 0 <= k < |lines|
      ensures TitledStepAt(st0, lines, Infos(lines), k) == TitledStepRead(st0, lines, k)
    {
      RunToInfos(st0, lines, k);
      InfosAt(lines, k);
      NumberedLineStartsStep(lines[k]);
    }
  }

  /** Closing the last block changes no kept step's title or priority. */
  lemma FinalDraftsAreKept(r: ScanState)
    ensures |FinalDrafts(r)| == |Kept(r)|
    ensures forall j :: 0 <= j < |Kept(r)| ==>
              FinalDrafts(r)[j].title == Kept(r)[j].title && FinalDrafts(r)[j].priority == Kept(r)[j].priority
  {
    assert Close(r).drafts == r.drafts;
    assert Close(r).draft.title == r.draft.title && Close(r).draft.priority == r.draft.priority;
  }

  /** What the classified view says about a line that starts a titled step. */
  lemma TitledLineFacts(st0: ScanState, lines: seq<string>, k: nat)
    requires k < |lines| && TitledStepRead(st0, lines, k)
    ensures TitleIn(Infos(lines)[k]) == TitleOf(lines[k]) != ""
    ensures StartsNumbered(lines[k])
    ensures RunTo(st0, lines, Infos(lines), k).priority == Run(st0, lines[..k]).priority
  {
    InfosAt(lines, k);
    NumberedLineStartsStep(lines[k]);
    RunToInfos(st0, lines, k);
  }

  /**
   * The steps kept at the end of a scan from the start state are, in order,
   * one per numbered line that the outer loop read and that carries a bold
   * title: a numbered line without one, or one swallowed by a capture
   * block, gives no step. Each kept step has its line's title and the
   * priority in force when its line was read.
   */
  lemma FinalDraftsFollowTitledLines(goal: string, lines: seq<string>)
    ensures var ks := StepLines(Start(goal), lines);
            var drafts := FinalDrafts(Run(Start(goal), lines));
            && (forall k: nat :: k in ks <==> k < |lines| && TitledStepRead(Start(goal), lines, k))
            && (forall i, j :: 0 <= i < j < |ks| ==> ks[i] < ks[j])
            && |drafts| == |ks|
            && forall j :: 0 <= j < |ks| ==>
                 && drafts[j].title == TitleOf(lines[ks[j]]) != ""
                 && StartsNumbered(lines[ks[j]])
                 && drafts[j].priority == Run(Start(goal), lines[..ks[j]]).priority
  {
    var st0, infos := Start(goal), Infos(lines);
    var ks := StepLines(st0, lines);
    MarksAgree(st0, lines);
    MarkedExact(ReadMarks(st0, lines), |lines|);
    RunKeepsTitledLines(st0, lines, infos, |lines|);
    RunToInfos(st0, lines, |lines|);
    assert lines[..|lines|] == lines;
    var r := Run(st0, lines);
    var kept := Kept(r);
    assert KeptFromLines(st0, lines, infos, |lines|, kept);
    FinalDraftsAreKept(r);
    var drafts := FinalDrafts(r);
    forall j | 0 <= j < |ks|
      ensures && drafts[j].title == TitleOf(lines[ks[j]]) != ""
              && StartsNumbered(lines[ks[j]])
              && drafts[j].priority == Run(st0, lines[..ks[j]]).priority
    {
      assert ks[j] in ks;
      TitledLineFacts(st0, lines, ks[j]);
    }
  }

  /**
   * The text path never returns an empty list: with no titled step it
   * returns exactly the fallback step, and otherwise one step per titled
   * numbered line, each under the priority in force at its line and with
   * its resources present (so never the fallback).
   */
  lemma ParseTextSteps(response: string, defaultGoal: string)
    ensures var lines := Lines(response);
            var ks := StepLines(Start(defaultGoal), lines);
            var steps := ParseText(response, defaultGoal).steps;
            && |steps| >= 1
            && (ks == [] ==> steps == [Fallback(response)])
            && (ks != [] ==> |steps| == |ks| && forall j :: 0 <= j < |ks| ==>
                  && steps[j].priority == Run(Start(defaultGoal), lines[..ks[j]]).priority
                  && steps[j].resources.Some?
                  && steps[j].timeframe != "")
  {
    FinalDraftsFollowTitledLines(defaultGoal, Lines(response));
  }

  /** The priority after one more line, from the scanner before it. */
  lemma RunToPriorityStep(st0: ScanState, lines: seq<string>, infos: seq<LineInfo>, n: nat)
    requires |infos| == |lines| && 0 < n <= |lines|
    ensures var st, info := RunTo(st0, lines, infos, n - 1), infos[n - 1];
            RunTo(st0, lines, infos, n).priority == if Closes(Kind(st.mode), info) && info.directive.SetPriority? then info.directive.priority else st.priority
  {
    RunOneMore(st0, lines, infos, n - 1, n);
    NextOnPriority(RunTo(st0, lines, infos, n - 1), lines[n - 1], infos[n - 1]);
  }

  /** Without a priority line read, the register keeps its value. */
  lemma {:induction false} RunToPriorityHeld(st0: ScanState, lines: seq<string>, infos: seq<LineInfo>, n: nat)
    requires |infos| == |lines| && n <= |lines|
    requires forall k :: 0 <= k < n ==> !infos[k].directive.SetPriority?
    ensures RunTo(st0, lines, infos, n).priority == st0.priority
  {
    if n > 0 {
      RunToPriorityHeld(st0, lines, infos, n - 1);
      RunToPriorityStep(st0, lines, infos, n);
    }
  }

  /** The goal after one more line, from the scanner before it. */
  lemma RunToGoalStep(st0: ScanState, lines: seq<string>, infos: seq<LineInfo>, n: nat)
    requires |infos| == |lines| && 0 < n <= |lines|
    ensures var st, info := RunTo(st0, lines, infos, n - 1), infos[n - 1];
            RunTo(st0, lines, infos, n).goal == if Closes(Kind(st.mode), info) && info.directive.SetGoal? && info.directive.goal.Some? then info.directive.goal.value else st.goal
  {
    RunOneMore(st0, lines, infos, n - 1, n);
    NextOnGoal(RunTo(st0, lines, infos, n - 1), lines[n - 1], infos[n - 1]);
  }

  /** Without a goal line read, the goal keeps its value. */
  lemma {:induction false} RunToGoalHeld(st0: ScanState, lines: seq<string>, infos: seq<LineInfo>, n: nat)
    requires |infos| == |lines| && n <= |lines|
    requires forall k :: 0 <= k < n ==> !infos[k].directive.SetGoal?
    ensures RunTo(st0, lines, infos, n).goal == st0.goal
  {
    if n > 0 {
      RunToGoalHeld(st0, lines, infos, n - 1);
      RunToGoalStep(st0, lines, infos, n);
    }
  }

  /** Before any priority line is read, the register holds medium. */
  lemma UnmarkedLinesAreMedium(goal: string, lines: seq<string>)
    requires forall k :: 0 <= k < |lines| ==> !PriorityLine(lines[k])
    ensures forall j :: 0 <= j < |StepLines(Start(goal), lines)| ==>
              Run(Start(goal), lines[..StepLines(Start(goal), lines)[j]]).priority == Medium
  {
    var st0, infos := Start(goal), Infos(lines);
    forall k | 0 <= k < |lines|
      ensures !infos[k].directive.SetPriority?
    {
      DirectiveAt(lines, k);
      PriorityTestOrder(lines[k]);
    }
    var ks := StepLines(st0, lines);
    MarkedExact(ReadMarks(st0, lines), |lines|);
    forall j | 0 <= j < |ks|
      ensures Run(st0, lines[..ks[j]]).priority == Medium
    {
      RunToPriorityHeld(st0, lines, infos, ks[j]);
      RunToInfos(st0, lines, ks[j]);
    }
  }

  /** A reply with no priority marker gives medium priority to every parsed step (the fallback step is high). */
  lemma UnmarkedStepsAreMedium(response: string, defaultGoal: string)
    requires forall k :: 0 <= k < |Lines(response)| ==> !PriorityLine(Lines(response)[k])
    ensures StepLines(Start(defaultGoal), Lines(response)) != [] ==>
              forall j :: 0 <= j < |ParseText(response, defaultGoal).steps| ==>
                ParseText(response, defaultGoal).steps[j].priority == Medium
  {
    ParseTextSteps(response, defaultGoal);
    UnmarkedLinesAreMedium(defaultGoal, Lines(response));
  }

  /** A reply with no goal line keeps the goal the parser was given. */
  lemma UnmarkedGoalKept(response: string, defaultGoal: string)
    requires forall k :: 0 <= k < |Lines(response)| ==> !GoalLine(Lines(response)[k])
    ensures ParseText(response, defaultGoal).goal == defaultGoal
  {
    var lines, st0 := Lines(response), Start(defaultGoal);
    var infos := Infos(lines);
    forall k | 0 <= k < |lines|
      ensures !infos[k].directive.SetGoal?
    {
      DirectiveAt(lines, k);
      GoalTestFirst(lines[k]);
    }
    RunToGoalHeld(st0, lines, infos, |lines|);
    RunToInfos(st0, lines, |lines|);
    assert lines[..|lines|] == lines;
  }

  // Examples ---------------------------------------------------------------------

  /** The header's tail after the emoji: `\s*(.+)` takes the bold label whole. */
  lemma HeaderTailGroup()
    ensures GreedyRestGroup(" **STAGE GOAL:**") == Some("**STAGE GOAL:**")
  {
    var u := "**STAGE GOAL:**";
    assert NoLineTerminator(u) by {
      assert forall k :: 0 <= k < |u| ==> !IsLineTerminator(u[k]);
    }
    GreedyRestAfterSpace(u);
  }

  /** After one space, `\s*(.+)` takes a line that starts with something other than white space whole. */
  lemma GreedyRestAfterSpace(u: string)
    requires u != [] && !IsWhite(u[0]) && NoLineTerminator(u)
    ensures GreedyRestGroup(" " + u) == Some(u)
  {
    var t := " " + u;
    assert t[1..] == u;
    assert TrimStart(t) == u by {
      assert SkipWhite(t, 1) == 1;
    }
    assert TakeLine(u) == u by {
      LineEndStops(u, 0);
    }
  }

  /** The bold label is already trimmed. */
  lemma HeaderLabelTrimmed()
    ensures Trim("**STAGE GOAL:**") == "**STAGE GOAL:**"
  {
    TrimTrims("**STAGE GOAL:**");
  }

  /**
   * The template's goal header: the emoji is the leftmost marker, so the
   * goal becomes the bold label itself and the goal text on the next line
   * is ignored.
   */
  lemma TemplateHeaderGoal()
    ensures DirectiveOf("\U{1F3AF} **STAGE GOAL:**") == SetGoal(Some("**STAGE GOAL:**"))
  {
    var s := "\U{1F3AF} **STAGE GOAL:**";
    assert Contains(s, GoalEmoji) by {
      assert OccursAt(s, GoalEmoji, 0);
    }
    assert !GoalLabelAt(s, 0);
    assert GoalMarkerAt(s, 0) == Some(1);
    assert s[1..] == " **STAGE GOAL:**";
    HeaderTailGroup();
    HeaderLabelTrimmed();
  }

  /** The first row whose key contains the stage text supplies the goal. */
  lemma StageGoalOfFirstRow()
    ensures TableGoal("Stage 0", "SALES") == "Learn to sell your solution through direct conversations"
  {
    var key := StageGoals[0].0;
    OccursAtSlice(key, "Stage 0", 0);
    assert key[0..7] == "Stage 0";
  }

  /**
   * A stage text no key contains selects the `Stage 2 - Advertise` row:
   * the table has rows for stages 0 to 3 only.
   */
  lemma UnknownStageGoal()
    ensures TableGoal("Stage 4 - Systemize the business", "PRODUCT") == "Focus on making it good before making it scalable"
  {
    assert forall k :: 0 <= k < |StageGoals| ==> |StageGoals[k].0| < |"Stage 4 - Systemize the business"|;
  }

  /** An area missing from the selected row gets the generic goal. */
  lemma UnknownAreaGoal()
    ensures TableGoal("Stage 0", "LEGAL") == DefaultAreaGoal
  {
    var key := StageGoals[0].0;
    OccursAtSlice(key, "Stage 0", 0);
    assert key[0..7] == "Stage 0";
  }
}
