# hormozi-scale routines in Dafny

hormozi-scale is a business-coaching dashboard. It shows a ten-stage growth model, keeps checklist tasks, lists CRM contacts fetched from HubSpot with analytics and charts over them, and asks a language model for "action plans": a goal plus prioritised steps, which it parses, renders and stores per user.

This project models the sequential routines inside that dashboard, one Dafny module per routine, and proves what each one promises:

- the action-plan text parser (`parseFormattedTextResponse`, the stage-goal lookup and the JSON-first dispatch of `getActionableSteps`), with its quirks kept;
- the advisor view that renders a step's text back into tagged sections, and the mapping of parsed steps to stored steps;
- the action-plan table with its owner-filtered queries, step and plan completion, and the saved-plans view that replaces a plan by id in its list;
- the OpenAI route's per-client fixed-window rate limiter, its retry policy for HTTP 429 (section 4 of RFC 6585) with `retry-after` in delay-seconds form (section 10.2.3 of RFC 9110), the message-content cascade and the error mapping;
- the two growth-stage classifications, the sales-metric ceilings, the action-point and task lists, task filtering and the checklist toggle map;
- the contact tables (search, stable sort, pagination, page-number window, sort-header state, CSV rows), the analytics tallies and the chart slices;
- the analysis-text splitter of the AI analysis panel;
- the multi-image upload list (add, remove, status updates, drag reorder);
- the chat-history bookkeeping of the OpenAI hook and the user-store merge.

Clocks, identifiers, the results of `JSON.parse`, the model's replies and every network or storage outcome are parameters. Methods that change state are proved against specification functions, and lemmas relate the functions to each other: the parser against an independent line-by-line state machine, rendering against composition, sorting against stability and permutation, the limiter against its window invariant.

## Model

| member | source | states |
|---|---|---|
| OpenAIRoute.Counted | src/app/api/openai/route.ts:44-59 | the entries after one check: only the caller's entry can change, a refused caller leaves every entry as it was, and an admitted caller's window ends no earlier than now |
| OpenAIRoute.RateLimiter.CheckRateLimit | src/app/api/openai/route.ts:44-59 | a missing or expired window (now > resetTime) restarts at count 1 until now + 60000 and allows; within a window (now == resetTime included) a count of 10 refuses and changes nothing, a lower count rises by one; allowed exactly when the caller is not refused; every window keeps between 1 and 10 admitted requests |
| OpenAIRoute.RetryDelay | src/app/api/openai/route.ts:131-132 | the wait is retry-after × 1000 ms when the header is there, else 2^attempt × 1000 ms, which is at least 2000 ms per attempt |
| OpenAIRoute.BackoffDelays | src/app/api/openai/route.ts:132 | without the header the waits are 2000 ms after the first 429 and 4000 ms after the second |
| OpenAIRoute.CallOpenAIWithRetry | src/app/api/openai/route.ts:100-146 | at most maxRetries calls; every call before the last was rate limited; a success is returned at once; a non-429 error is re-thrown at once and a 429 only on the last attempt; each wait is RetryDelay of the 429 it follows; zero retries reach the final throw |
| OpenAIRoute.ExtractMessageContent | src/app/api/openai/route.ts:66-98 | no choice gives "No response generated", a choice without a message "No message in response", string content is returned verbatim; the other cases follow ExtractCascade |
| OpenAIRoute.ExtractCascade | src/app/api/openai/route.ts:79-96 | without string content: a function call is reported before tool calls, non-empty tool calls list their names ("Unknown tool" for a non-function tool), a null tool call lands in the catch ("Error processing response"), anything else is "Response received but content format not recognized" |
| OpenAIRoute.ClientId | src/app/api/openai/route.ts:168-170 | x-forwarded-for when non-empty, else x-real-ip when non-empty, else "unknown-client"; never empty |
| OpenAIRoute.ErrorResponse | src/app/api/openai/route.ts:198-246 | status 429 exactly for an upstream 429 or, failing a 401, the code insufficient_quota; 401 exactly for an upstream 401; everything else 500 |
| OpenAIRoute.Post | src/app/api/openai/route.ts:148-248 | checks in order: an unreadable body 500, no messages 400, no API key 500, and none of them touches the limiter or calls the API; 429 ClientRateLimited with Retry-After 60 exactly when the body and key are fine and the limiter refuses; the limiter's entries become Counted; otherwise the retry loop runs, a thrown error maps through ErrorResponse, a completion without `choices` fails on `choices[0]` with 500, and an answer is ExtractMessageContent of the completion |
| OpenAIRoute.Complete | src/app/api/openai/route.ts:187-246 | the part of POST after the limiter: between 1 and 3 calls, only 429s before the last, a 429 on the last call only at the third, and the same response mapping as Post |
| ChatHistory.RequestSettings | src/hooks/use-openai.ts:46-51 | model, max_tokens and temperature are the option when it is truthy, else "gpt-4o-mini", 1000 and 0.7 (a zero temperature becomes 0.7) |
| ChatHistory.RequestMessages | src/hooks/use-openai.ts:35-39 | the system prompt first when it is non-empty, then the history unchanged, then the new user message |
| ChatHistory.FailureMessage | src/hooks/use-openai.ts:54-72 | a response that is not ok gives the body's error when truthy, else "Failed to get response from OpenAI" (never empty); a thrown Error gives its message, even an empty one; any other thrown value "An unknown error occurred" |
| ChatHistory.HistoryAfter | src/hooks/use-openai.ts:62-67 | a reply appends the user message then the assistant's; a failure leaves the history alone |
| ChatHistory.SystemPromptNeverStored | src/hooks/use-openai.ts:35-67 | the system prompt is sent but never enters the stored history |
| ChatHistory.Chat.SendMessage | src/hooks/use-openai.ts:30-77 | the request is RequestMessages of the old history; the history becomes HistoryAfter; a reply clears the error and is returned, a failure sets the error to FailureMessage and is passed on; loading is false at the end |
| ChatHistory.Chat.ClearMessages | src/hooks/use-openai.ts:79-82 | empties the history and the error, loading untouched |
| ChatHistory.Chat.AddMessage | src/hooks/use-openai.ts:84-86 | appends one user or assistant message, nothing else changes |
| UserStore.Updated | src/stores/user-store.ts:29-34 | with a current user every key of the update wins and every other key is kept; without one the update is the user |
| UserStore.EmptyUpdateKeepsUser | src/stores/user-store.ts:32 | an update with no keys changes nothing |
| UserStore.UpdateIsIdempotent | src/stores/user-store.ts:32 | applying the same update twice is applying it once |
| UserStore.UpdatesCompose | src/stores/user-store.ts:32 | two updates in turn are one merged update, the later keys winning |
| UserStore.Store.constructor | src/stores/user-store.ts:26-28 | the store starts from the given state |
| UserStore.Store.UpdateUser | src/stores/user-store.ts:29-34 | the user becomes Updated(old user, update) |
| ChatHistory.Chat.constructor | src/hooks/use-openai.ts:26-28 | no messages, not loading, no error |
| OpenAIRoute.RateLimiter.constructor | src/app/api/openai/route.ts:40 | no client has made a request |
| ActionPlans.FindOwned | src/lib/supabase/action-plans.ts:99-104 | the row selected by `.eq('id').eq('user_id')`: a found index holds a row with that id and owner, and no row matches when none is found |
| ActionPlans.OwnedByComplete | src/lib/supabase/action-plans.ts:73-76 | every row of the owner is among the owner's rows (and OwnedBy holds only those) |
| ActionPlans.WithoutMembers | src/lib/supabase/action-plans.ts:182-186 | delete removes exactly the rows with that id and owner: every other row stays and nothing appears |
| ActionPlans.WithoutKeepsOthers | src/lib/supabase/action-plans.ts:182-186 | a delete by one user leaves every other user's rows as they were |
| ActionPlans.WithoutKeepsTable | src/lib/supabase/action-plans.ts:182-186 | a delete keeps the table well-formed (ids, owners, creation times, distinct ids) |
| ActionPlans.Apply | src/lib/supabase/action-plans.ts:126-131 | an update replaces the given fields and keeps every other field of the row |
| ActionPlans.Inserted | src/lib/supabase/action-plans.ts:38-51 | the inserted row has the caller as owner, the new id and creation time, `is_completed` or else false, no completion time, and the plan's other fields |
| ActionPlans.Completed | src/lib/supabase/action-plans.ts:153-157 | the marked step is completed at now and keeps its other fields |
| ActionPlans.ActionPlanService.constructor | src/lib/supabase/action-plans.ts:27-28 | an empty, well-formed table |
| ActionPlans.ActionPlanService.SaveActionPlan | src/lib/supabase/action-plans.ts:30-63 | no user, or an id already taken, gives null and no change; a signed-in user with an unused id always gets the row (both directions); a saved plan is Inserted(plan) appended to the table; other users' rows never change |
| ActionPlans.ActionPlanService.GetActionPlans | src/lib/supabase/action-plans.ts:65-89 | nothing without a user; only the caller's rows otherwise |
| ActionPlans.GetActionPlansNewestFirst | src/lib/supabase/action-plans.ts:73-77 | getActionPlans is a permutation of the caller's rows, holds every one of them, newest `created_at` first |
| ActionPlans.ActionPlanService.GetActionPlanById | src/lib/supabase/action-plans.ts:91-116 | found exactly when a row has both the id and the caller as owner, and it is that row |
| ActionPlans.ActionPlanService.UpdateActionPlan | src/lib/supabase/action-plans.ts:118-144 | a plan the caller cannot read gives null and no change; otherwise that one row becomes Apply(row, updates) and is returned; other users' rows never change |
| ActionPlans.ActionPlanService.MarkStepCompleted | src/lib/supabase/action-plans.ts:146-165 | an unreadable plan gives null and sends no update; otherwise one update is sent whose plan differs only in its steps: the same length, only step i changed, to Completed, when 0 <= i < length, and identical steps for any other index |
| ActionPlans.ActionPlanService.MarkPlanCompleted | src/lib/supabase/action-plans.ts:167-172 | the plan gets is_completed = true and completed_at = now, its steps untouched; null exactly when the caller cannot read it |
| ActionPlans.ActionPlanService.DeleteActionPlan | src/lib/supabase/action-plans.ts:174-198 | false and no change without a user; otherwise true, and the table loses exactly the caller's row with that id |
| SavedActionPlans.ReplaceById | src/components/saved-action-plans.tsx:32-34 | the list keeps its length |
| SavedActionPlans.ReplaceByIdEntries | src/components/saved-action-plans.tsx:32-34 | entries with the id become the new plan, all others stay where and as they were |
| SavedActionPlans.ReplaceByIdIdempotent | src/components/saved-action-plans.tsx:32-34 | replacing a second time with the same plan changes nothing more |
| SavedActionPlans.ReplaceByIdAbsent | src/components/saved-action-plans.tsx:32-34 | a list without the id is unchanged |
| SavedActionPlans.SavedActionPlansPanel.constructor | src/components/saved-action-plans.tsx:7-10 | empty list, loading, no error, nothing selected |
| SavedActionPlans.SavedActionPlansPanel.CurrentScreen | src/components/saved-action-plans.tsx:96-131 | the loading screen exactly while loading; an error screen only for a non-empty error; the list only when it is non-empty |
| SavedActionPlans.SavedActionPlansPanel.LoadActionPlans | src/components/saved-action-plans.tsx:16-26 | a loaded list replaces the plans; a throw keeps them and sets the error to the Error's message or "Failed to load action plans"; loading is false at the end |
| SavedActionPlans.SavedActionPlansPanel.SelectPlan | src/components/saved-action-plans.tsx:154 | selects the plan, nothing else changes |
| SavedActionPlans.SavedActionPlansPanel.ApplyUpdated | src/components/saved-action-plans.tsx:31-53 | null changes nothing; a plan replaces the list's entries with its id and the selection only when the selection has that id |
| SavedActionPlans.SavedActionPlansPanel.HandleMarkStepCompleted | src/components/saved-action-plans.tsx:28-42 | the service's answer is null exactly when the plan is unreadable, and then nothing changes; otherwise the service's row is the plan with the step marked (StepMarked), the list becomes ReplaceById(old list, planId, plan), a selection with that id becomes the plan, and "Mark Done" is no longer offered for the marked step |
| SavedActionPlans.SavedActionPlansPanel.HandleMarkPlanCompleted | src/components/saved-action-plans.tsx:44-58 | the same for the plan flag: the service's row gets is_completed and completed_at, the list becomes ReplaceById(old list, planId, plan), a selection with that id becomes the plan and "Mark Complete" is no longer offered |
| BusinessAreaAdvisor.StripEmojiPrefix | src/components/business-area-advisor.tsx:42 | the intended `^[🏆🚀💡]\s*` removal: a suffix of the title, and the title itself when it does not start with a title emoji |
| BusinessAreaAdvisor.StripEmojiPrefixRemoves | src/components/business-area-advisor.tsx:42 | a title emoji, white space, then text not starting with white space leaves exactly that text |
| BusinessAreaAdvisor.StripEmojiUnits | src/components/business-area-advisor.tsx:42 | the same pattern as written, without the `u` flag, applied to UTF-16 code units: one unit of the class, then white space, is removed |
| BusinessAreaAdvisor.TitleEmojiUnits | src/components/business-area-advisor.tsx:42 | each title emoji is two code units, a high surrogate 0xD83C or 0xD83D and a low surrogate |
| BusinessAreaAdvisor.StripEmojiUnitsSplitsEmoji | src/components/business-area-advisor.tsx:42 | as written, a title starting with a title emoji loses only the high surrogate: the result starts with a lone low surrogate and is the encoding of no string |
| BusinessAreaAdvisor.TrophyTitle | src/components/business-area-advisor.tsx:42 | "🏆 Win" becomes 0xDFC6 followed by " Win" as written, and "Win" as intended |
| BusinessAreaAdvisor.HttpOnlyKeepsLinks | src/components/business-area-advisor.tsx:89 | the `startsWith('http')` filter keeps only entries starting with "http", and keeps a list of such entries whole |
| BusinessAreaAdvisor.SectionsOfSnoc | src/components/business-area-advisor.tsx:37-119 | each further piece adds its own section, if it has one, at the end |
| BusinessAreaAdvisor.Render | src/components/business-area-advisor.tsx:33-123 | computes the corrected behaviour (titles stripped by StripEmojiPrefix): at most one section per "\n\n" piece, and the untouched text when no piece gives a section |
| BusinessAreaAdvisor.RenderStructuredAction | src/components/business-area-advisor.tsx:33-123 | the loop over the pieces, pushing each piece's section, computes Render |
| BusinessAreaAdvisor.PlainWithoutSections | src/components/business-area-advisor.tsx:111-123 | the whole text is shown as one paragraph exactly when no piece gives a section |
| BusinessAreaAdvisor.SectionsOfEmpty | src/components/business-area-advisor.tsx:37-121 | there are no sections exactly when no piece gives one |
| AdvisorSave.PriorityName | src/components/business-area-advisor.tsx:16 | a step's priority is one of "high", "medium", "low" |
| AdvisorSave.PriorityColor | src/components/business-area-advisor.tsx:184-195 | the grey badge exactly for a priority other than the three known ones |
| AdvisorSave.PriorityIcon | src/components/business-area-advisor.tsx:197-208 | the white circle exactly for a priority other than the three known ones |
| AdvisorSave.StepPrioritiesAreDistinguished | src/components/business-area-advisor.tsx:184-208 | every step priority gets its own colour and icon, never the fallback |
| AdvisorSave.StoredStep | src/components/business-area-advisor.tsx:163-169 | a saved step is not completed and has no completion time |
| AdvisorSave.StoredStepsRoundTrip | src/components/business-area-advisor.tsx:163-169 | saving loses nothing: the stored steps read back are the advice's steps, in order, none completed |
| AdvisorSave.PlanToSave | src/components/business-area-advisor.tsx:152-171 | nothing to save exactly when there are no steps; otherwise the plan carries the stage, area, goal, situation and the optional context as given, and is not completed |
| AdvisorSave.TextAdviceIsSaved | src/components/business-area-advisor.tsx:139-153 | advice read from a formatted-text reply always has a step, so it is always saved |
| AdvisorSave.HandleSaveActionPlan | src/components/business-area-advisor.tsx:152-182 | no steps: nothing changes; a plan is saved exactly when the advice has steps, a user is signed in and the id is unused, and nothing changes otherwise; a saved plan is the service's Inserted row, appended to the table, for the signed-in user, not completed |
| ActionableSteps.GetActionableSteps | src/lib/openai-utils.ts:195-210 | only a JSON reply can give zero steps |
| ActionableSteps.JsonReplyPlan | src/lib/openai-utils.ts:200-206 | a JSON object gives `parsed.goal`, or else the table goal, and `parsed.steps`, or else no steps |
| ActionableSteps.TextReplyPlan | src/lib/openai-utils.ts:207-210 | any other reply is parsed as formatted text from the table goal, and has at least one step |
| ActionRoundTrip.TitlePartSection | src/components/business-area-advisor.tsx:38-48 | the part `**title**` gives a title section, holding the title with its emoji stripped when the title is bold-safe |
| ActionRoundTrip.AfterLabelOfPart | src/components/business-area-advisor.tsx:50 | replacing the label and trimming takes back exactly the trimmed text placed after it |
| ActionRoundTrip.DescriptionPartSection | src/components/business-area-advisor.tsx:49-55 | "Description: x" renders as the description x |
| ActionRoundTrip.ExecutionPartSection | src/components/business-area-advisor.tsx:56-63 | "How to Execute: x" renders as the execution x |
| ActionRoundTrip.TimelinePartSection | src/components/business-area-advisor.tsx:64-71 | "Timeline: x" renders as the timeline x |
| ActionRoundTrip.ResourcesPartSection | src/components/business-area-advisor.tsx:72-86 | "Resources: x" renders as the trimmed ';'-pieces of x |
| ActionRoundTrip.LinksPartSection | src/components/business-area-advisor.tsx:87-110 | the links part renders as exactly its links when none holds a comma |
| ActionRoundTrip.LinksSplitBack | src/components/business-area-advisor.tsx:89 | splitting the ", "-joined links at commas, trimming and filtering gives the links back |
| ActionRoundTrip.PartsOneLine | src/lib/openai-utils.ts:263-270 | no part of a well-formed step holds a line feed |
| ActionRoundTrip.LabelledPartsSections | src/components/business-area-advisor.tsx:49-110 | each labelled part gives its named section, in order |
| ActionRoundTrip.ActionTextSplitsIntoParts | src/components/business-area-advisor.tsx:34 | cutting the action text of a titled, well-formed step at "\n\n" gives back exactly its parts |
| ActionRoundTrip.PartsSections | src/components/business-area-advisor.tsx:37-119 | the parts give a title section, then one named section per labelled part |
| ActionRoundTrip.RenderActionText | src/components/business-area-advisor.tsx:33-123 | the advisor shows a titled, well-formed step's action as one section per part, in order, holding exactly the step's fields |
| ActionRoundTrip.DirectiveValuesOneLine | src/lib/openai-utils.ts:237-291 | what a line's directive carries is on one line, and a timeline is trimmed |
| ActionRoundTrip.NextKeepsWellFormed | src/lib/openai-utils.ts:233-384 | one line of the scan keeps every draft on one line, trimmed, with only links in its links |
| ActionRoundTrip.RunKeepsWellFormed | src/lib/openai-utils.ts:233-384 | the whole scan keeps that invariant |
| ActionRoundTrip.ParsedDraftsWellFormed | src/lib/openai-utils.ts:214-397 | every step the text path keeps comes from a titled, well-formed draft |
| ActionRoundTrip.ParsedActionRenders | src/components/business-area-advisor.tsx:33-123 | every action the text path builds from a titled step renders as its title section followed by exactly its description, execution, timeline, resources and links sections, provided no link holds a comma |
| AdvisorSave.StoredSteps | src/components/business-area-advisor.tsx:163-172 | one stored step per step of the advice |
| ActionPlanParser.FirstStageRow | src/lib/openai-utils.ts:97 | the first row at or after the start whose key contains the stage text, and no earlier row contains it |
| ActionPlanParser.StageRow | src/lib/openai-utils.ts:97-98 | the first row whose key contains the stage text, else the "Stage 2 - Advertise" row |
| ActionPlanParser.TableGoal | src/lib/openai-utils.ts:97-101 | the selected row's goal for the area, or "Improve this business area" when the row has no such area |
| ActionPlanParser.GoalGroupFrom | src/lib/openai-utils.ts:238 | the captured goal after the leftmost "STAGE GOAL:" (any case) or 🎯 and the white space after it is never empty |
| ActionPlanParser.GoalGroupOneLine | src/lib/openai-utils.ts:238 | the goal group stays within one line |
| ActionPlanParser.TimelineGroupFrom | src/lib/openai-utils.ts:326 | the group of `\*\*⏰ Timeline:\*\*\s*(.+)` is never empty |
| ActionPlanParser.TimelineGroupOneLine | src/lib/openai-utils.ts:326 | the timeline group stays within one line |
| ActionPlanParser.TitleGroup | src/lib/openai-utils.ts:287 | a title group exists only on a line starting with digits and a full stop, and is never empty |
| ActionPlanParser.TitleGroupOneLine | src/lib/openai-utils.ts:287 | the title group stays within one line |
| ActionPlanParser.TitleOfTrimmed | src/lib/openai-utils.ts:287-290 | a step title is trimmed, and a non-empty one is the trimmed bold group of a numbered line |
| ActionPlanParser.StartDraft | src/lib/openai-utils.ts:281-290 | a numbered line opens a step with the priority in force, its title, and nothing else filled in |
| ActionPlanParser.Flush | src/lib/openai-utils.ts:262 | a step is pushed exactly when it has a title (`action` is never assigned) |
| ActionPlanParser.StepsOfSnoc | src/lib/openai-utils.ts:272-277 | flushing one more step pushes it after the others |
| ActionPlanParser.NonBlankTrimmed | src/lib/openai-utils.ts:215 | every line kept is non-empty and trimmed |
| ActionPlanParser.Absorb | src/lib/openai-utils.ts:298-352 | a line inside a capture block stays in the same block |
| ActionPlanParser.Close | src/lib/openai-utils.ts:305-356 | ending a block stores what it gathered in the current step and changes neither the goal, the pushed steps nor the priority |
| ActionPlanParser.BlockEnd | src/lib/openai-utils.ts:298-339 | the first line at or after the start that ends the block, or the end of the lines |
| ActionPlanParser.BeforeBlockEnd | src/lib/openai-utils.ts:298-339 | no line before a block's end ends it |
| ActionPlanParser.ScanStep | src/lib/openai-utils.ts:233-366 | one pass of the outer loop moves the index strictly forward, so the scan terminates |
| ActionPlanParser.RunThroughBlock | src/lib/openai-utils.ts:296-304 | a capture block absorbs every line up to the first that ends it |
| ActionPlanParser.OverDescription | src/lib/openai-utils.ts:295-307 | a description block sets the step's description to its lines joined with single spaces, and the loop resumes at its stop line |
| ActionPlanParser.OverExecution | src/lib/openai-utils.ts:310-322 | an execution block sets the step's execution text the same way |
| ActionPlanParser.OverResources | src/lib/openai-utils.ts:334-358 | a resources block sets the step's resources and links to what its bullet lines gathered |
| ActionPlanParser.ScanMatchesRun | src/lib/openai-utils.ts:233-366 | the index loop, capture blocks included, ends exactly where the line-at-a-time scanner does |
| ActionPlanParser.CaptureDescription | src/lib/openai-utils.ts:295-307 | the inner loop stops at the first execution or timeline marker after the opening line (or the end) and joins the lines before it with single spaces |
| ActionPlanParser.CaptureExecution | src/lib/openai-utils.ts:310-322 | the inner loop stops at the first timeline or resources marker and joins the lines before it |
| ActionPlanParser.GatherResource | src/lib/openai-utils.ts:340-350 | one resources line: a bullet adds its text after "; " and every URL in it |
| ActionPlanParser.CaptureResources | src/lib/openai-utils.ts:334-358 | the inner loop stops at a success-criteria marker or a numbered line and gathers the bullets before it |
| ActionPlanParser.ScanPass | src/lib/openai-utils.ts:233-366 | one pass of the outer loop with its capture loops does what ScanStep specifies, and keeps the pushed steps equal to StepsOf of the drafts |
| ActionPlanParser.ScanLines | src/lib/openai-utils.ts:233-385 | the outer loop and the last flush give the goal and steps of the line-at-a-time scan |
| ActionPlanParser.ParseFormattedTextResponse | src/lib/openai-utils.ts:214-397 | computes ParseText: trimmed non-blank lines, scanned, with the fallback step |
| ActionPlanProperties.GoalTestFirst | src/lib/openai-utils.ts:237-243 | a line sets the goal exactly when it holds "STAGE GOAL:" or 🎯, whatever else it holds |
| ActionPlanProperties.PriorityTestOrder | src/lib/openai-utils.ts:246-257 | HIGH, then MEDIUM, then LOW PRIORITY are tested in that order, after the goal test |
| ActionPlanProperties.NumberedLineStartsStep | src/lib/openai-utils.ts:260-291 | a numbered line starts a step unless a goal or priority marker on it came first; its title is the trimmed bold group or "" |
| ActionPlanProperties.NextEffects | src/lib/openai-utils.ts:233-366 | only a numbered line read by the outer loop flushes the current step and opens a new one; only a priority line sets the register; only a goal line with a group sets the goal |
| ActionPlanProperties.MarkedExact | src/lib/openai-utils.ts:260-291 | the listed positions are exactly the marked ones, each once, in increasing order |
| ActionPlanProperties.RunKeepsTitledLines | src/lib/openai-utils.ts:233-366 | after any prefix of the lines, the kept steps are one per titled numbered line read so far, with its title and priority |
| ActionPlanProperties.FinalDraftsFollowTitledLines | src/lib/openai-utils.ts:260-385 | the steps kept are, in source order, one per numbered line the outer loop read that carries a bold title, each with that title and the priority in force at its line |
| ActionPlanProperties.ParseTextSteps | src/lib/openai-utils.ts:260-394 | the text path never returns an empty list: with no titled step exactly the fallback step (the raw response, high, "Immediate", no resources), otherwise one step per titled line with its priority, present resources and a non-empty timeframe |
| ActionPlanProperties.RunToPriorityHeld | src/lib/openai-utils.ts:225-257 | without a priority line the register keeps its value |
| ActionPlanProperties.RunToGoalHeld | src/lib/openai-utils.ts:217-243 | without a goal line the goal keeps its value |
| ActionPlanProperties.UnmarkedLinesAreMedium | src/lib/openai-utils.ts:225 | before any priority line the register holds medium |
| ActionPlanProperties.UnmarkedStepsAreMedium | src/lib/openai-utils.ts:225-274 | a reply without priority markers gives every parsed step medium priority |
| ActionPlanProperties.UnmarkedGoalKept | src/lib/openai-utils.ts:217 | a reply without a goal line keeps the goal the parser was given |
| ActionPlanProperties.TemplateHeaderGoal | src/lib/openai-utils.ts:237-241 | the template's header "🎯 **STAGE GOAL:**" sets the goal to the bold label itself |
| ActionPlanProperties.StageGoalOfFirstRow | src/lib/openai-utils.ts:40-97 | "Stage 0" with SALES gives the first row's sales goal |
| ActionPlanProperties.UnknownStageGoal | src/lib/openai-utils.ts:97 | a stage no key contains falls back to the Stage 2 row |
| ActionPlanProperties.UnknownAreaGoal | src/lib/openai-utils.ts:99-101 | an area missing from the row gives "Improve this business area" |
| GrowthStages.TableShape | src/app/dashboard/page.tsx:9-20 | ten stages with ids equal to their positions, strictly increasing revenue minimums, a bounded revenue range on every stage but the last, and none on Capitalize |
| GrowthStages.HeadcountsCover | src/app/dashboard/page.tsx:9-20 | some stage's headcount range holds a headcount exactly when it lies in 0 to 500 |
| GrowthStages.HeadcountRanges | src/app/dashboard/page.tsx:9-20 | the first three stages take 0 to 1 people, Stabilize 1 to 4, the rest five or more, none above 500 |
| GrowthStages.OneStagePerHeadcount | src/app/dashboard/page.tsx:9-20 | from two people up, at most one stage's headcount range holds the headcount |
| GrowthStages.FindById | src/app/company-info/page.tsx:41-44 | finding a stage by id yields the row at that position, and nothing past the last |
| CompanyInfo.CurrentStage | src/app/company-info/page.tsx:32-38 | the stage shown is always a row of the table |
| CompanyInfo.FindFirstFit | src/app/company-info/page.tsx:33-38 | `find` yields the first row that fits, no earlier row fits, and when none is found no row fits |
| CompanyInfo.CurrentStageIsFirstFit | src/app/company-info/page.tsx:32-38 | the stage shown is the first fitting stage, or the first stage when no stage fits |
| CompanyInfo.NoFitFallsBack | src/app/company-info/page.tsx:38 | with no fitting stage, the first stage is shown |
| CompanyInfo.UpperBoundIsExclusive | src/app/company-info/page.tsx:37 | a revenue equal to a stage's maximum is not in that stage |
| CompanyInfo.RevenueGap | src/app/company-info/page.tsx:22-23 | no stage takes a revenue from 50 million up to 100 million |
| CompanyInfo.RevenueGapFallsBack | src/app/company-info/page.tsx:32-38 | such a revenue shows the first stage, whatever the headcount |
| CompanyInfo.StartingValuesFallBack | src/app/company-info/page.tsx:7-8 | the page's starting values, four people and no revenue, fit no stage, so Improvise is shown |
| CompanyInfo.NextStage | src/app/company-info/page.tsx:41-44 | the stage with the next id, and none exactly after the last stage |
| CompanyInfo.CapitalizeIsLast | src/app/company-info/page.tsx:23 | Capitalize is the last row and the only one with that name |
| CompanyInfo.NextStageOfCurrent | src/app/company-info/page.tsx:41-44 | the next stage of any stage shown is its successor row, and Capitalize has none |
| Dashboard.HeadcountMatches | src/app/dashboard/page.tsx:149-152 | the stages that hold the headcount, a subsequence of the table |
| Dashboard.CurrentStage | src/app/dashboard/page.tsx:147-165 | the stage chosen is a table row whose headcount range holds the headcount |
| Dashboard.HeadcountMatchesOne | src/app/dashboard/page.tsx:149-156 | from 2 to 500 people exactly one stage matches |
| Dashboard.SmallStagesMatch | src/app/dashboard/page.tsx:149-152 | each of the first three (or four) stages matches zero (or one) person |
| Dashboard.LargeStagesSkip | src/app/dashboard/page.tsx:149-152 | none of the later stages matches zero or one person |
| Dashboard.HeadcountMatchesSmall | src/app/dashboard/page.tsx:149-152 | zero people match the first three stages and one person the first four |
| Dashboard.HeadcountMatchesNone | src/app/dashboard/page.tsx:149-152 | outside 0 to 500 people no stage matches |
| Dashboard.HeadcountMatchesAre | src/app/dashboard/page.tsx:149-152 | the matches for every headcount: one stage, the first three or four, or none |
| Dashboard.CurrentStageIgnoresRevenue | src/app/dashboard/page.tsx:154-156 | with a single headcount match the revenue plays no part |
| Dashboard.CurrentStageForSmallTeams | src/app/dashboard/page.tsx:158-164 | for zero or one person the first matching stage whose inclusive revenue range holds the revenue, else the first match |
| Dashboard.CurrentStageUndefined | src/app/dashboard/page.tsx:147-165 | there is no current stage exactly when the headcount is outside 0 to 500 |
| Dashboard.UpperBoundIsInclusive | src/app/dashboard/page.tsx:161 | a revenue equal to a small stage's maximum keeps the lower stage, where the company-info page moves up |
| Dashboard.StartingStage | src/app/dashboard/page.tsx:125-126 | the starting values, four people and no revenue, give Stabilize |
| Dashboard.PagesDisagreeOnStartingValues | src/app/dashboard/page.tsx:147-165 | on those values the dashboard shows Stabilize and the company-info page Improvise |
| Dashboard.NextStage | src/app/dashboard/page.tsx:167-171 | none without a current stage or from stage 9; otherwise the stage with the next id |
| Dashboard.MetricsToward | src/app/dashboard/page.tsx:173-181 | no metrics exactly when there is no next stage, no price, or no positive gap; otherwise the targets for that gap |
| Dashboard.Targets | src/app/dashboard/page.tsx:177-211 | the metrics record carries the revenue gap it was computed from |
| Dashboard.TargetsCoverGap | src/app/dashboard/page.tsx:180-195 | the sales needed are the least that cover the gap, the monthly sales the least that cover them in 12 months, the monthly target covers the gap, and capacity is 52 a year per person |
| Dashboard.MonthlyTargetsCover | src/app/dashboard/page.tsx:185-186 | twelve months at the monthly target reach the revenue gap |
| Dashboard.StartingTargets | src/app/dashboard/page.tsx:125-128 | the page's fixed values are a million away from the next stage: 200 sales, 17 a month |
| Dashboard.FrequencyName | src/app/dashboard/page.tsx:220-270 | a frequency is written as one of "daily", "weekly", "once", "ongoing" |
| Dashboard.AreaNamesDiffer | src/app/dashboard/page.tsx:22-118 | different areas have different names, so the area filter tells them apart |
| Dashboard.SalesPerDay | src/app/dashboard/page.tsx:188 | the least whole number of days' sales, five business days a week, that covers the weekly sales |
| Dashboard.LeadsDailyFromSixAWeek | src/app/dashboard/page.tsx:221-235 | leads are set daily exactly when more than five sales a week are needed |
| Dashboard.GetSalesActionPoints | src/app/dashboard/page.tsx:214-288 | the loop of pushes returns exactly the points SalesActionPoints lists |
| Dashboard.SalesActionPointsShape | src/app/dashboard/page.tsx:214-288 | no points exactly without metrics; otherwise five points plus one for over-capacity and one for delivery over eight weeks, a high-priority marketing point first, the pipeline point last, a recruiting point exactly when over capacity and a product point exactly when delivery exceeds eight weeks |
| Dashboard.StartingPointsCount | src/app/dashboard/page.tsx:214-288 | on the starting values with the capacity test firing there are six points |
| Dashboard.CoreFourChecklist | src/app/dashboard/page.tsx:290-341 | a known method's list starts with the Rule of 100; an unknown one gives only the prompt to choose |
| Dashboard.CreatingContentIsUnknown | src/app/dashboard/page.tsx:290-341 | "creating-content", which the company-info page offers, gives only the prompt |
| Dashboard.AreaTasks | src/app/dashboard/page.tsx:399-421 | one task per item of the area's list |
| Dashboard.SalesTasks | src/app/dashboard/page.tsx:424-438 | one task per action point |
| Dashboard.WithCompletion | src/app/dashboard/page.tsx:416 | the same number of tasks, completion looked up by key |
| Dashboard.TaskListShape | src/app/dashboard/page.tsx:397-440 | the regular tasks come first, then one task per action point with the key `SALES-ACTION-i-` and that point's area, frequency and priority |
| Dashboard.RegularTasksMedium | src/app/dashboard/page.tsx:399-421 | every regular task has medium priority |
| Dashboard.ToggleFlipsOnlyKey | src/app/dashboard/page.tsx:130-135 | toggling flips the key, an absent key becoming true, leaves every other key, and twice restores the checklist |
| Dashboard.ToggleChangesOnlyItsTasks | src/app/dashboard/page.tsx:130-135 | after a toggle exactly the tasks with that key change, and only in completion |
| Dashboard.DashboardPage.constructor | src/app/dashboard/page.tsx:121-128 | nothing checked, both filters "all" |
| Dashboard.DashboardPage.ToggleChecklistItem | src/app/dashboard/page.tsx:130-135 | the checklist becomes its toggle and the filters are unchanged |
| Dashboard.DashboardPage.SetFrequencyFilter | src/app/dashboard/page.tsx:612 | only the frequency filter changes |
| Dashboard.DashboardPage.SetAreaFilter | src/app/dashboard/page.tsx:625 | only the area filter changes |
| Dashboard.DashboardPage.GetFilteredTasks | src/app/dashboard/page.tsx:442-454 | the two filters in turn return the tasks that pass both, in list order |
| Dashboard.FilteredTasksAre | src/app/dashboard/page.tsx:442-454 | filtering by frequency then area equals filtering by both at once |
| Dashboard.FilteredTasksSelect | src/app/dashboard/page.tsx:442-454 | the filtered list keeps list order and holds exactly the tasks that pass both filters |
| HubSpotContact.ContainsEmpty | src/components/contacts-data-table.tsx:76 | every text contains the empty search term |
| HubSpotContact.PresentStages | src/components/contacts-data-table.tsx:247-253 | at most one stage per contact, in contact order |
| HubSpotContact.PresentStagesAre | src/components/contacts-data-table.tsx:247-253 | a stage survives `filter(Boolean)` exactly when it is not empty and some contact has it |
| HubSpotContact.UniqueStagesAreFirstAppearances | src/components/contacts-data-table.tsx:247-253 | the filter's options hold each present stage once, and only present stages, in order of first appearance |
| HubSpotContact.TotalContacts | src/components/hubspot-contacts-table.tsx:50 | the reported total when it is non-zero, else the other count when it is non-zero, else 0 |
| HubSpotContact.StageLabel | src/components/hubspot-contacts-table.tsx:96-109 | never empty: the known label of the lower-cased stage, else the stage itself, else "Unknown" |
| HubSpotContactsTable.FilteredContacts | src/components/hubspot-contacts-table.tsx:111-121 | no more contacts than given |
| HubSpotContactsTable.FilteredContactsSelect | src/components/hubspot-contacts-table.tsx:111-121 | the shown contacts keep their order, and a contact is shown exactly when it matches the search and the stage select |
| HubSpotContactsTable.EmptyTermKeepsStageMatches | src/components/hubspot-contacts-table.tsx:112 | an empty search keeps every contact the stage select lets through, and with "all" every contact |
| HubSpotContactsTable.PhoneNeverSearched | src/components/hubspot-contacts-table.tsx:113-116 | the phone plays no part in this table's search |
| HubSpotContactsTable.NonEmptyTermSearchesFourFields | src/components/hubspot-contacts-table.tsx:113-116 | a non-empty term matches exactly when a name, the email or the company contains it, up to case |
| HubSpotContactsTable.StageColor | src/components/hubspot-contacts-table.tsx:79-94 | the known colour of the lower-cased stage, else grey |
| HubSpotContactsTable.LabelAndColorAgree | src/components/hubspot-contacts-table.tsx:79-109 | a stage has a known colour exactly when it has a known label; grey goes with the fallback label |
| HubSpotContactsTable.LookupIgnoresCase | src/components/hubspot-contacts-table.tsx:92-108 | stages equal up to case get the same label and colour |
| ContactsTable.EmptySearchNeedsAField | src/components/contacts-data-table.tsx:75-80 | the empty search matches exactly the contacts that have at least one searched field, since a missing field gives `undefined` |
| ContactsTable.Shown | src/components/contacts-data-table.tsx:73-127 | as many contacts as pass the filters |
| ContactsTable.FilterAndSort | src/components/contacts-data-table.tsx:73-127 | filtering into a new array and sorting it in place gives Shown |
| ContactsTable.ShownIsStableSortOfFiltered | src/components/contacts-data-table.tsx:73-127 | the shown list is a permutation of the filtered one, holds exactly the contacts that match the search and status, is sorted on the column, and keeps the filtered order among equal keys |
| ContactsTable.Clamp | src/components/contacts-data-table.tsx:133 | the index is cut to the length, as `slice` does |
| ContactsTable.PageIsSlice | src/components/contacts-data-table.tsx:129-133 | page n is the items from `(n - 1) * perPage` to `n * perPage`, both cut at the end |
| ContactsTable.FirstPagesArePrefix | src/components/contacts-data-table.tsx:129-133 | the first k pages together are the first `k * perPage` items |
| ContactsTable.PrefixSplits | src/components/contacts-data-table.tsx:133 | a prefix is a shorter prefix followed by the slice between the two ends |
| ContactsTable.PageStartBeforeEnd | src/components/contacts-data-table.tsx:131-132 | a page's start is at or before its end |
| ContactsTable.PagesCoverItems | src/components/contacts-data-table.tsx:129-133 | pages 1 to `totalPages` show every item once, in order |
| ContactsTable.PagesUpToTotalAreNotEmpty | src/components/contacts-data-table.tsx:129-133 | every page up to `totalPages` shows at least one item |
| ContactsTable.PageStartsInside | src/components/contacts-data-table.tsx:130-131 | every page up to `totalPages` starts inside the items |
| ContactsTable.StartBeforeEnd | src/components/contacts-data-table.tsx:130-131 | a page start at or below the last page's start lies inside the items |
| ContactsTable.PageWindowSpans | src/components/contacts-data-table.tsx:547-560 | at most five consecutive page numbers, all between 1 and `totalPages`, including the current page |
| ContactsTable.FullName | src/components/contacts-data-table.tsx:240-244 | never empty: the trimmed "first last", or "Unnamed Contact" when that is empty |
| ContactsTable.NamedContactHasName | src/components/contacts-data-table.tsx:240-244 | a contact with a non-blank first name is shown by its trimmed name |
| ContactsTable.TruncationKeepsText | src/components/contacts-data-table.tsx:175-196 | "--" exactly for missing or empty text; short text whole; longer text cut to `maxLength` characters plus "...", with the whole text as a tooltip |
| ContactsTable.SpaceBeforeCapitals | src/components/contacts-data-table.tsx:222 | inserting spaces never shortens the status |
| ContactsTable.NoCapitalsNoSpaces | src/components/contacts-data-table.tsx:222 | a status without capitals gains no spaces |
| ContactsTable.LowerCaseStatusIsCapitalized | src/components/contacts-data-table.tsx:217-225 | a trimmed lower-case status only has its first letter raised |
| ContactsTable.CsvRow | src/components/contacts-data-table.tsx:257-264 | a row has one cell per header |
| ContactsTable.CsvLines | src/components/contacts-data-table.tsx:268 | one line per contact |
| ContactsTable.CsvLineIsOneLine | src/components/contacts-data-table.tsx:268 | a row whose cells hold no line break is a single line |
| ContactsTable.CsvHasOneLinePerContact | src/components/contacts-data-table.tsx:266-269 | when no cell holds a line break, the export splits into the header line and one line per contact |
| ContactsTable.SplitJoinLines | src/components/contacts-data-table.tsx:269 | lines without line breaks joined by "\n" split back into the same lines |
| ContactsTable.LinesAreSingle | src/components/contacts-data-table.tsx:266-268 | no line of the export holds a line break when no cell does |
| ContactsTable.HeaderIsOneLine | src/components/contacts-data-table.tsx:256-267 | the header line holds no line break |
| ContactsTable.RowLineIsOneLine | src/components/contacts-data-table.tsx:268 | the line of a contact whose cells hold no line break is one line |
| ContactsTable.UnescapeShortens | src/components/contacts-data-table.tsx:268 | reading a quoted field never lengthens it, and shortens it when it holds a quote |
| ContactsTable.UnescapePlain | src/components/contacts-data-table.tsx:268 | text without quotes reads back as itself |
| ContactsTable.QuotedCellReadsBack | src/components/contacts-data-table.tsx:268 | a quoted cell reads back as itself exactly when it holds no quote |
| ContactsTable.QuotedCellBreaks | src/components/contacts-data-table.tsx:268 | a cell holding a quote does not survive the export |
| ContactsTable.EscapedCellReadsBack | src/components/contacts-data-table.tsx:268 | with quotes doubled every cell reads back as itself |
| ContactsTable.DataTable.constructor | src/components/contacts-data-table.tsx:65-70 | no search, all statuses, page 1 of 10 rows, by name ascending |
| ContactsTable.DataTable.PageIsEmptyOnlyWithoutRows | src/components/contacts-data-table.tsx:129-133 | in a valid state the page is empty exactly when no contact passes the filters |
| ContactsTable.DataTable.HandleSearchChange | src/components/contacts-data-table.tsx:136-139 | the search is set, back to page 1, nothing else changes |
| ContactsTable.DataTable.HandleStatusFilterChange | src/components/contacts-data-table.tsx:141-144 | the status filter is set, back to page 1, nothing else changes |
| ContactsTable.DataTable.HandleItemsPerPageChange | src/components/contacts-data-table.tsx:146-149 | the page size is set, back to page 1, nothing else changes |
| ContactsTable.DataTable.HandleSort | src/components/contacts-data-table.tsx:152-162 | the same column flips the direction, another sorts ascending; back to page 1 |
| ContactsTable.DataTable.ClearSearch | src/components/contacts-data-table.tsx:596-605 | offered only on an empty page with a search; clears the search, and the page is already 1 |
| ContactsTable.DataTable.FirstPage | src/components/contacts-data-table.tsx:518-529 | page 1, nothing else changes |
| ContactsTable.DataTable.PreviousPage | src/components/contacts-data-table.tsx:538 | one page back, not below 1 |
| ContactsTable.DataTable.NextPage | src/components/contacts-data-table.tsx:576 | one page on, not past `totalPages` |
| ContactsTable.DataTable.LastPage | src/components/contacts-data-table.tsx:586 | the last page |
| ContactsTable.DataTable.GoToPage | src/components/contacts-data-table.tsx:564 | the page of the window button clicked |
| StableSort.StrLessIrreflexive | src/components/contacts-data-table.tsx:121 | no string is below itself under `<` |
| StableSort.StrLessTrichotomy | src/components/contacts-data-table.tsx:121-122 | two strings are equal or one is below the other, never both ways |
| StableSort.StrLessTransitive | src/components/contacts-data-table.tsx:121 | `<` on strings is transitive |
| StableSort.BeforeIsStrictTotalOrder | src/components/contacts-data-table.tsx:121-123 | the comparator orders keys strictly and totally, in both directions |
| StableSort.NotBeforeTransitive | src/components/contacts-data-table.tsx:121-123 | "not before" is transitive, so a sorted list needs only neighbouring checks |
| StableSort.WithKey | src/components/contacts-data-table.tsx:89-124 | picking the elements with one key never lengthens the list |
| StableSort.WithKeyAppend | src/components/contacts-data-table.tsx:89-124 | picking by key distributes over concatenation |
| StableSort.Insert | src/components/contacts-data-table.tsx:89-124 | inserting adds one element |
| StableSort.SortBy | src/components/contacts-data-table.tsx:89-124 | sorting keeps the length |
| StableSort.InsertPermutes | src/components/contacts-data-table.tsx:89-124 | insertion adds exactly the one element |
| StableSort.OneWithKey | src/components/contacts-data-table.tsx:89-124 | a single element has at most one element with a key |
| StableSort.WithKeySnoc | src/components/contacts-data-table.tsx:89-124 | picking by key from a list with one more element |
| StableSort.InsertKeepsKeyOrder | src/components/contacts-data-table.tsx:89-124 | insertion puts the new element after the ones with its key |
| StableSort.InsertSorted | src/components/contacts-data-table.tsx:89-124 | insertion keeps a sorted list sorted |
| StableSort.SortBySorted | src/components/contacts-data-table.tsx:89-124 | the sort orders its result by the comparator |
| StableSort.SortByPermutes | src/components/contacts-data-table.tsx:89-124 | the sort neither loses nor invents elements |
| StableSort.SortByStable | src/components/contacts-data-table.tsx:89-124 | elements with equal keys keep their relative order, as `Array.prototype.sort` guarantees |
| StableSort.InsertDistinct | src/components/contacts-data-table.tsx:89-124 | insertion of a new element keeps the elements distinct |
| StableSort.SortByDistinct | src/components/contacts-data-table.tsx:89-124 | sorting a list without repeats gives none |
| StableSort.InsertStepsLeft | src/components/contacts-data-table.tsx:89-124 | one shift of the inner loop keeps the insertion's result |
| StableSort.InsertStops | src/components/contacts-data-table.tsx:89-124 | the inner loop stops where the element belongs |
| StableSort.Placed | src/components/contacts-data-table.tsx:89-124 | the array after the shift is the prefix, the element, then the rest |
| StableSort.InsertInPlace | src/components/contacts-data-table.tsx:89-124 | the prefix becomes the insertion of the element and the rest is untouched |
| StableSort.SortInPlace | src/components/contacts-data-table.tsx:89-124 | the array ends up as the stable sort of its old contents |
| Tallies.Occurrences | src/components/hubspot-analytics.tsx:77-88 | a key occurs no more often than the list is long |
| Tallies.Bump | src/components/hubspot-analytics.tsx:81-82 | counting one more key adds it if new, adds one to its count (from 0), and leaves every other count alone |
| Tallies.TallySnoc | src/components/hubspot-analytics.tsx:77-88 | counting one more key is a bump of the dictionary so far |
| Tallies.TallyCounts | src/components/hubspot-analytics.tsx:77-88 | the dictionary holds exactly the keys that occur, each with its number of occurrences |
| Tallies.SumOverIgnores | src/components/hubspot-analytics.tsx:77-88 | changing a count outside the summed keys changes no sum |
| Tallies.SumOverBump | src/components/hubspot-analytics.tsx:81-82 | bumping a key summed once adds one to the sum |
| Tallies.TallySumsToLength | src/components/hubspot-analytics.tsx:77-88 | the counts over the distinct keys add up to the number of keys counted |
| Tallies.RepeatedKeys | src/components/hubspot-analytics.tsx:133-135 | a key is counted more than once exactly when it occurs at least twice |
| Tallies.OccurrencesMeanMember | src/components/hubspot-analytics.tsx:77-88 | a key occurs exactly when it is a member |
| HubSpotAnalytics.StageKey | src/components/hubspot-analytics.tsx:80 | a contact's stage key is never empty |
| HubSpotAnalytics.CompanyKey | src/components/hubspot-analytics.tsx:85-86 | a company is counted under its trimmed, non-empty name |
| HubSpotAnalytics.StageKeys | src/components/hubspot-analytics.tsx:77-80 | one stage key per contact |
| HubSpotAnalytics.CompanyKeys | src/components/hubspot-analytics.tsx:77-87 | at most one company key per contact |
| HubSpotAnalytics.CountContacts | src/components/hubspot-analytics.tsx:73-89 | the `forEach` leaves the tallies of the stage keys and of the company keys |
| HubSpotAnalytics.CountStep | src/components/hubspot-analytics.tsx:79-87 | one contact bumps its stage, and its company when it has one |
| HubSpotAnalytics.StageKeysAre | src/components/hubspot-analytics.tsx:80 | a stage key is counted exactly when some contact has it |
| HubSpotAnalytics.DistributionCountsEachContactOnce | src/components/hubspot-analytics.tsx:73-89 | each stage key maps to its positive number of contacts, and the counts add up to the number of contacts |
| HubSpotAnalytics.CompanyKeysAre | src/components/hubspot-analytics.tsx:85-87 | a company is counted exactly when some contact's company trims to it |
| HubSpotAnalytics.CompaniesWithMultipleContacts | src/components/hubspot-analytics.tsx:133-135 | no more than the number of companies |
| HubSpotAnalytics.MultipleContactsMeansTwoContacts | src/components/hubspot-analytics.tsx:133-135 | a company counts as having several contacts exactly when at least two contacts' companies trim to it |
| HubSpotAnalytics.LeadsSinceIsOneFilter | src/components/hubspot-analytics.tsx:107-131 | filtering leads, then by date, counts the contacts that pass both tests |
| HubSpotAnalytics.LeadsSinceAreCreatedLeads | src/components/hubspot-analytics.tsx:107-131 | the leads of a period are the contacts that are leads and were created since its start |
| HubSpotAnalytics.UndatedNeverCounted | src/components/hubspot-analytics.tsx:100-131 | a contact without a creation date is never recent and never a lead of any period |
| HubSpotAnalytics.LeadCountsOrdered | src/components/hubspot-analytics.tsx:100-131 | leads today are no more than leads this week or month, and leads this month no more than the recent contacts |
| HubSpotAnalytics.ComputeAnalytics | src/components/hubspot-analytics.tsx:70-149 | every field of the analytics record: the total, the contact count, the distribution, the companies with several contacts, and the four counts by date |
| HubSpotAnalytics.StageLabel | src/components/hubspot-analytics.tsx:172-184 | the known label of the lower-cased stage, else the stage as given |
| HubSpotAnalytics.StageColor | src/components/hubspot-analytics.tsx:186-199 | the known colour of the lower-cased stage, else grey |
| HubSpotAnalytics.DistributionKeysDisplay | src/components/hubspot-analytics.tsx:172-199 | every counted stage has a non-empty label, grey goes exactly with unknown stages, and "unknown" reads "Unknown" |
| HubSpotCharts.Underscored | src/components/hubspot-charts-dashboard.tsx:123 | every white-space character becomes "_", every other character is kept |
| HubSpotCharts.LeadStatusLabel | src/components/hubspot-charts-dashboard.tsx:110-125 | never empty: the known label, else the status as given, else "Unknown" |
| HubSpotCharts.LeadStatusIgnoresCaseAndSpacing | src/components/hubspot-charts-dashboard.tsx:122-124 | statuses differing only in case or white space get the same label |
| HubSpotCharts.MissingValuesChartedAsLowerCaseUnknown | src/components/hubspot-charts-dashboard.tsx:130-143 | a missing stage or status is charted as "unknown", because the fallback is applied before the label lookup, which would have given "Unknown" |
| HubSpotCharts.StagesMergeUpToCase | src/components/hubspot-charts-dashboard.tsx:128-137 | known stages differing only in case share one slice |
| HubSpotCharts.Labels | src/components/hubspot-charts-dashboard.tsx:129-131 | one label per contact, the labelling function's |
| HubSpotCharts.CountStep | src/components/hubspot-charts-dashboard.tsx:129-135 | counting a label bumps its count and adds it to the key order only when new |
| HubSpotCharts.CountLabels | src/components/hubspot-charts-dashboard.tsx:129-135 | the `reduce` leaves the tally of the labels, with keys in order of first appearance |
| HubSpotCharts.Entries | src/components/hubspot-charts-dashboard.tsx:128-136 | one slice per key, carrying its count |
| HubSpotCharts.ChartData | src/components/hubspot-charts-dashboard.tsx:128-137 | one slice per distinct label |
| HubSpotCharts.ChartDataOf | src/components/hubspot-charts-dashboard.tsx:128-149 | counting, listing the entries and sorting them in place gives ChartData of the labels |
| HubSpotCharts.TotalAppend | src/components/hubspot-charts-dashboard.tsx:128-137 | the total of two lists of slices is the sum of their totals |
| HubSpotCharts.TotalInsert | src/components/hubspot-charts-dashboard.tsx:137 | inserting a slice adds its value to the total |
| HubSpotCharts.TotalSortBy | src/components/hubspot-charts-dashboard.tsx:137 | sorting keeps the total |
| HubSpotCharts.TotalEntries | src/components/hubspot-charts-dashboard.tsx:128-136 | the entries' total is the sum of the counts over the keys |
| HubSpotCharts.ChartDataCountsEveryContact | src/components/hubspot-charts-dashboard.tsx:128-149 | the slices' values add up to the number of contacts |
| HubSpotCharts.ChartDataDescending | src/components/hubspot-charts-dashboard.tsx:137 | the slices are in descending order of value |
| HubSpotCharts.EntriesAreCounts | src/components/hubspot-charts-dashboard.tsx:128-136 | before sorting there is one slice per distinct label, with its number of occurrences |
| HubSpotCharts.ChartDataPermutesEntries | src/components/hubspot-charts-dashboard.tsx:128-137 | the chart holds exactly the entries, sorted |
| HubSpotCharts.ChartDataMergesLabels | src/components/hubspot-charts-dashboard.tsx:128-137 | a slice is in the chart exactly when its name is a label and its value that label's count |
| HubSpotCharts.ChartNamesDistinct | src/components/hubspot-charts-dashboard.tsx:128-137 | no two slices share a name |
| HubSpotCharts.PieColor | src/components/hubspot-charts-dashboard.tsx:354 | a slice's colour is from the palette, the slice's own one for the first eight |
| HubSpotCharts.PieColorsCycle | src/components/hubspot-charts-dashboard.tsx:354 | the colours repeat every eight slices |
| ImageUpload.VisibleAreNotDeleted | src/components/react-hook-form/form-multi-image-upload.tsx:145 | the visible images are exactly the ones not marked deleted, in list order; deleted ones stay in the list |
| ImageUpload.AsNew | src/components/react-hook-form/form-multi-image-upload.tsx:158-161 | each file becomes a "new" entry without an old URL |
| ImageUpload.AddImages | src/components/react-hook-form/form-multi-image-upload.tsx:151-163 | no files changes nothing; otherwise the error is shown exactly when more files came than the room left, the old list is kept as a prefix, and only new entries for the first files that fit are appended |
| ImageUpload.AddKeepsLimit | src/components/react-hook-form/form-multi-image-upload.tsx:151-163 | adding never takes the visible images past a limit they were within |
| ImageUpload.RemoveImage | src/components/react-hook-form/form-multi-image-upload.tsx:165-170 | the entry at the index is marked deleted and keeps its file; every other entry is unchanged |
| ImageUpload.RemoveOutsideIsNoOp | src/components/react-hook-form/form-multi-image-upload.tsx:165-170 | an index outside the list, such as the -1 of a failed `findIndex`, removes nothing |
| ImageUpload.Replacement | src/components/react-hook-form/form-multi-image-upload.tsx:177-188 | the new file; an "old" entry becomes "updated" and keeps its URL as the old URL, any other becomes "new" |
| ImageUpload.UpdateImage | src/components/react-hook-form/form-multi-image-upload.tsx:176-190 | only the entry at the index is replaced |
| ImageUpload.ReplacingTwiceForgetsStoredUrl | src/components/react-hook-form/form-multi-image-upload.tsx:177-188 | a second replacement of an old image turns it "new" and drops the URL the backend needs to delete |
| ImageUpload.Without | src/components/react-hook-form/form-multi-image-upload.tsx:209 | removing one element shortens the list by one |
| ImageUpload.Moved | src/components/react-hook-form/form-multi-image-upload.tsx:208-210 | the moved element lands at the drop index and the length is kept |
| ImageUpload.MovedPermutes | src/components/react-hook-form/form-multi-image-upload.tsx:208-210 | moving is a permutation that keeps the other elements in their relative order |
| ImageUpload.ImageField.constructor | src/components/react-hook-form/form-multi-image-upload.tsx:126-143 | the given list, no drag and no pending replacement |
| ImageUpload.ImageField.AddFiles | src/components/react-hook-form/form-multi-image-upload.tsx:151-163 | the list becomes AddImages of the old list and the error flag is returned |
| ImageUpload.ImageField.Remove | src/components/react-hook-form/form-multi-image-upload.tsx:165-170 | the list becomes RemoveImage of the old list |
| ImageUpload.ImageField.ImageClick | src/components/react-hook-form/form-multi-image-upload.tsx:193-196 | the index to replace is remembered; nothing else changes |
| ImageUpload.ImageField.UpdateChosen | src/components/react-hook-form/form-multi-image-upload.tsx:331-337 | with a file and a remembered index the entry is replaced, otherwise the list is kept; the index is forgotten either way |
| ImageUpload.ImageField.DragStart | src/components/react-hook-form/form-multi-image-upload.tsx:198-200 | the dragged index is remembered |
| ImageUpload.ImageField.Drop | src/components/react-hook-form/form-multi-image-upload.tsx:206-213 | with no drag, or a drop on itself, nothing changes; otherwise the dragged entry moves to the drop index and the drag ends |
| AiAnalysis.SectionMatchEnd | src/components/hubspot-ai-analysis.tsx:133 | a section-pattern match at a heading consumes at least `###` and one white-space character |
| AiAnalysis.MatchAt | src/components/hubspot-ai-analysis.tsx:133 | a match consumes at least one character and stays inside the text |
| AiAnalysis.NextMatch | src/components/hubspot-ai-analysis.tsx:133 | the leftmost match at or after the start, when there is one |
| AiAnalysis.NextMatchIsFirst | src/components/hubspot-ai-analysis.tsx:133 | no match starts between the start and the one found |
| AiAnalysis.SplitFrom | src/components/hubspot-ai-analysis.tsx:133 | `split` always yields at least one part |
| AiAnalysis.NoMatchNoSplit | src/components/hubspot-ai-analysis.tsx:133 | text the pattern never matches in is one part |
| AiAnalysis.NoHeadingBetween | src/components/hubspot-ai-analysis.tsx:133 | a stretch with no section match holds no `###` heading |
| AiAnalysis.SectionPartsHaveNoHeading | src/components/hubspot-ai-analysis.tsx:133 | no part of the split on the section pattern holds `###` followed by white space |
| AiAnalysis.NoHeadingNoSubheading | src/components/hubspot-ai-analysis.tsx:133 | text without `###` plus white space has no `####` heading, which ends in one |
| AiAnalysis.SectionMatchChars | src/components/hubspot-ai-analysis.tsx:133 | after `###` the section pattern consumes only white space, digits and a full stop |
| AiAnalysis.SectionMatchStopsBeforeSubheading | src/components/hubspot-ai-analysis.tsx:133 | a section match that starts before a `####` heading ends before it |
| AiAnalysis.GuardedSkipsSubheading | src/components/hubspot-ai-analysis.tsx:133 | the corrected pattern matches nowhere inside a `####` heading |
| AiAnalysis.SubheadingInSlice | src/components/hubspot-ai-analysis.tsx:133 | a `####` heading wholly inside a slice is one there too |
| AiAnalysis.SplitFromHead | src/components/hubspot-ai-analysis.tsx:133 | the first part runs up to the first match, and the others are the split after that match |
| AiAnalysis.GuardedMatchAvoidsSubheading | src/components/hubspot-ai-analysis.tsx:133 | a corrected match lies before a `####` heading or after its first white space |
| AiAnalysis.GuardedSplitKeepsSubheading | src/components/hubspot-ai-analysis.tsx:133 | with the corrected pattern every `####` heading of the text is found in some part |
| AiAnalysis.NonBlankLinesAreLines | src/components/hubspot-ai-analysis.tsx:166 | the kept lines are non-blank and hold no line break |
| AiAnalysis.Tail | src/components/hubspot-ai-analysis.tsx:168 | `slice(1)` drops exactly one element of a non-empty list |
| AiAnalysis.NoHeadingSlice | src/components/hubspot-ai-analysis.tsx:166 | a slice of text without a heading has none |
| AiAnalysis.SplitLinesHeadingFree | src/components/hubspot-ai-analysis.tsx:166 | the lines of a text without a heading are heading-free |
| AiAnalysis.FilterHeadingFree | src/components/hubspot-ai-analysis.tsx:166 | dropping lines keeps them heading-free |
| AiAnalysis.AppendLineNoSubheading | src/components/hubspot-ai-analysis.tsx:168 | a heading-free line and its line break in front of subheading-free text make no subheading |
| AiAnalysis.JoinHeadingFreeLines | src/components/hubspot-ai-analysis.tsx:168 | heading-free lines joined by line breaks hold no `####` heading |
| AiAnalysis.FirstTestWins | src/components/hubspot-ai-analysis.tsx:139-163 | the first branch whose phrase or word the part mentions decides |
| AiAnalysis.NoTestIsOverview | src/components/hubspot-ai-analysis.tsx:139-163 | a part that mentions none is an overview with the star |
| AiAnalysis.FirstKeywordWins | src/components/hubspot-ai-analysis.tsx:139-163 | the earliest keyword mentioned decides, whatever later ones are mentioned |
| AiAnalysis.NoKeywordIsOverview | src/components/hubspot-ai-analysis.tsx:139-163 | mentioning no keyword makes an overview |
| AiAnalysis.ContainsEnding | src/components/hubspot-ai-analysis.tsx:143-158 | a text that mentions a phrase mentions every ending of it |
| AiAnalysis.RowAsKeyword | src/components/hubspot-ai-analysis.tsx:143-158 | a branch whose phrase holds its word classifies like the word alone |
| AiAnalysis.LastRowAsKeywords | src/components/hubspot-ai-analysis.tsx:158-160 | the last branch tests its two words of its own |
| AiAnalysis.PhraseHoldsWord | src/components/hubspot-ai-analysis.tsx:143-155 | in every branch but the last the phrase holds the word |
| AiAnalysis.KeywordFollowsRow | src/components/hubspot-ai-analysis.tsx:143-155 | each keyword is the word of the branch at its position |
| AiAnalysis.TestsFromRow | src/components/hubspot-ai-analysis.tsx:143-160 | from any branch on, the phrase tests classify like the keywords |
| AiAnalysis.ClassifyIsFirstKeyword | src/components/hubspot-ai-analysis.tsx:139-163 | a part's class is that of the first keyword it mentions; the two-word phrases change nothing |
| AiAnalysis.ContainsBeginning | src/components/hubspot-ai-analysis.tsx:143-158 | a text that mentions a phrase mentions every beginning of it |
| AiAnalysis.CompanyInsightsMentionsCompany | src/components/hubspot-ai-analysis.tsx:149 | "company insights" mentions "company" |
| AiAnalysis.EngagementPatternsMentionsEngagement | src/components/hubspot-ai-analysis.tsx:152 | "engagement patterns" mentions "engagement" |
| AiAnalysis.StripNumbering | src/components/hubspot-ai-analysis.tsx:167 | removing the numbering leaves an ending of the line |
| AiAnalysis.NumberedUpTo | src/components/hubspot-ai-analysis.tsx:167 | digits, a full stop and white space make a numbered line whose numbering ends after the white space |
| AiAnalysis.NumberedLayout | src/components/hubspot-ai-analysis.tsx:167 | where the digits, the full stop, the white space and the rest lie in `N. rest` |
| AiAnalysis.StripNumberingDropsNumber | src/components/hubspot-ai-analysis.tsx:167 | stripping `N. rest` gives the rest |
| AiAnalysis.FallbackTitleIsTrimmed | src/components/hubspot-ai-analysis.tsx:167 | `Section k` is non-empty and trimmed |
| AiAnalysis.SectionTitleIsTrimmed | src/components/hubspot-ai-analysis.tsx:167 | a section title is never empty and is trimmed |
| AiAnalysis.Without | src/components/hubspot-ai-analysis.tsx:177 | every colon is removed and nothing is added |
| AiAnalysis.CloseAt | src/components/hubspot-ai-analysis.tsx:181 | the lazy match ends at the first `**:` at or after the start |
| AiAnalysis.CloseAtStaysOnLine | src/components/hubspot-ai-analysis.tsx:181 | no line ends before that `**:` |
| AiAnalysis.ItemAt | src/components/hubspot-ai-analysis.tsx:181 | an item match lies after its start and spans at least five characters |
| AiAnalysis.TrimmedBoldNamed | src/components/hubspot-ai-analysis.tsx:182 | a one-line text that starts with `**` and holds `**:` stays bold-named once trimmed |
| AiAnalysis.ItemAtIsBoldNamed | src/components/hubspot-ai-analysis.tsx:181-183 | each item is one line of the form `**name**: text` |
| AiAnalysis.ItemsFromAreBoldNamed | src/components/hubspot-ai-analysis.tsx:181-183 | every item found is bold-named |
| AiAnalysis.NoBulletNoItems | src/components/hubspot-ai-analysis.tsx:181 | a text without a bullet character yields no item |
| AiAnalysis.Optional | src/components/hubspot-ai-analysis.tsx:181-188 | an empty list becomes `undefined`, any other is kept |
| AiAnalysis.Collect | src/components/hubspot-ai-analysis.tsx:174-192 | no more results than items looked at |
| AiAnalysis.CollectNext | src/components/hubspot-ai-analysis.tsx:174-192 | the result for one more item follows the earlier ones |
| AiAnalysis.CollectSource | src/components/hubspot-ai-analysis.tsx:174-192 | every result comes from some item |
| AiAnalysis.CollectCount | src/components/hubspot-ai-analysis.tsx:174-192 | one result per accepted item |
| AiAnalysis.ParsePiece | src/components/hubspot-ai-analysis.tsx:175-191 | the loop body yields the subsection SubsectionOf gives |
| AiAnalysis.ParseSubsections | src/components/hubspot-ai-analysis.tsx:171-192 | the `forEach` yields the subsections of the content |
| AiAnalysis.ParsePart | src/components/hubspot-ai-analysis.tsx:135-201 | the part's callback yields SectionAt of the part |
| AiAnalysis.ParseAnalysis | src/components/hubspot-ai-analysis.tsx:123-203 | the `forEach` over the parts yields the corrected Analysis of the text |
| AiAnalysis.SubsectionOfIsWellFormed | src/components/hubspot-ai-analysis.tsx:175-191 | a subsection's title is trimmed and has no colon, and its items, when present, are bold-named lines |
| AiAnalysis.SubsectionsAreWellFormed | src/components/hubspot-ai-analysis.tsx:171-192 | every subsection of a section is well formed |
| AiAnalysis.FirstTestFits | src/components/hubspot-ai-analysis.tsx:139-163 | the classifier picks a fitting icon and kind when every branch does |
| AiAnalysis.ClassifyFits | src/components/hubspot-ai-analysis.tsx:139-163 | every section gets the icon of its kind |
| AiAnalysis.SectionOfIsWellFormed | src/components/hubspot-ai-analysis.tsx:135-201 | a section has a non-empty trimmed title, the icon of its kind, and well-formed subsections |
| AiAnalysis.AnalysisIsWellFormed | src/components/hubspot-ai-analysis.tsx:123-203 | one well-formed section per non-blank part of the split |
| AiAnalysis.HeadinglessTextIsOneSection | src/components/hubspot-ai-analysis.tsx:133-201 | non-blank text without a heading is one section, classified on the whole text |
| AiAnalysis.HeadingFreePartContent | src/components/hubspot-ai-analysis.tsx:166-168 | the content of a part without headings has no subheading |
| AiAnalysis.UnsplitContentSubsections | src/components/hubspot-ai-analysis.tsx:172 | content without a subheading makes at most one subsection |
| AiAnalysis.AsWrittenNeverSplitsSubsections | src/components/hubspot-ai-analysis.tsx:133 | with the pattern as written no part holds a `####` heading, so every section has at most one subsection |
| AiAnalysis.CorrectedKeepsSubheadings | src/components/hubspot-ai-analysis.tsx:133 | with the corrected pattern every `####` heading survives into a part |
| AiAnalysis.ShownGroups | src/components/hubspot-ai-analysis.tsx:208-209 | a section is shown in the group of its kind only; overview sections are never shown |
| AiAnalysis.CategoryOfIsWellFormed | src/components/hubspot-ai-analysis.tsx:273-276 | a shown category has a non-empty title without colons and numbered one-line recommendations |
| AiAnalysis.CategoriesAreWellFormed | src/components/hubspot-ai-analysis.tsx:273-276 | every category shown is well formed, at most one per piece |
| AiAnalysis.ColonSplitRejoins | src/components/hubspot-ai-analysis.tsx:289-290 | the title is the text before the first colon, and title, colon and rest give the line back |
| AiAnalysis.DropNumberedBoldOf | src/components/hubspot-ai-analysis.tsx:299 | `N. **name**` loses its number and opening bold marker |
| AiAnalysis.DisplayTitleOfBoldNumbered | src/components/hubspot-ai-analysis.tsx:299 | `N. **name**` is shown as `name` |
| AiAnalysis.RecommendationOfLine | src/components/hubspot-ai-analysis.tsx:289-299 | `N. **name**: text` is shown as `name` with the trimmed text |
| AiAnalysis.DigitsHaveNoColon | src/components/hubspot-ai-analysis.tsx:289 | digits hold no colon |
| AiAnalysis.ColonSplitTitle | src/components/hubspot-ai-analysis.tsx:289-290 | a line `head:text` with no colon in `head` splits into `head` and `text` |

## Left out

- Network and storage I/O: the OpenAI SDK call, `callOpenAI` and the `fetch` calls of components and hooks, the Supabase client and its auth calls (the table is an in-memory map), and the HubSpot OAuth routes, which only redirect and write cookies.
- The contacts route `src/app/api/hubspot/contacts/route.ts`: one request with no pagination loop and no authentication fallback, so nothing beyond I/O.
- The session bootstrap and auth-change listener of `src/providers/user-store-provider.tsx`: asynchronous callbacks and timers.
- Concurrency: the rate-limit map's read-modify-write is not synchronised across requests; requests are modelled as one sequential stream.
- Prompt text in `src/lib/openai-utils.ts`: constant strings with no behaviour.
- JSX rendering, Tailwind classes, tooltips, skeletons and the pages that only present calls covered here; the Blob and download of `exportToCSV` (its rows are modelled).
- `JSON.parse` is an optional pre-parsed `{goal, steps}` value and `parseInt` of `retry-after` an optional natural number; the NaN case and the HTTP-date form are handled by neither the code nor the model.
- Floating point: the 4.33 weeks-per-month divisions enter the metrics as given integers, `capacityUtilization > 80` is a given boolean, and `formatRevenue`, `toFixed`, `toLocaleString`, `Math.round` averages and the percentages of `getCompletionProgress` are not modelled.
- Dates: parsing and formatting, and the week and month bucketing and date ranges of `src/components/hubspot-charts-dashboard.tsx:151-296`; dates are integer timestamps given as inputs.
- `getCoreFourTips`, `getFrequencyBadge`, the status badge colours and `handleDragOver` (which only calls `preventDefault`): constant display lookups with no logic to prove.
- HubSpotCharts.ChartData: slices with equal counts keep the order in which their labels first appear; a JavaScript object lists integer-like keys such as "1234567" first, in ascending order, so for ["Lead", "1234567"] the `Object.entries` call in `HubSpotChartsDashboard` lists "1234567" first and the model "Lead".
- Tallies.Tally: the same key order as ChartData, with the same exception for integer-like keys.
- Text.Prefix: counts Unicode code points, while `substring(0, 20)` counts UTF-16 code units; the two differ for characters outside the Basic Multilingual Plane.
- Dashboard.ItemKey: built on Text.Prefix, so it has the same code-point difference.
- ContactsTable.TruncatedText: lengths are in code points, not UTF-16 code units.
- StableSort.StrLess: compares code points, while JavaScript `<` compares UTF-16 code units; the orders differ between astral characters and characters from U+E000 to U+FFFF.
- Text.ToLower: maps ASCII letters only, while `toLowerCase` applies Unicode case mapping; this affects contact search, stage matching and the keyword classification of the analysis splitter.
- HubSpotContact.StageLabel: a lifecycle stage named after an object prototype member such as "constructor" finds an inherited value in the `labels` object of `getLifecycleStageLabel`; the model treats it as an unknown stage.
- HubSpotCharts.LifecycleChartLabel: the same prototype-key difference as HubSpotContact.StageLabel.
- HubSpotAnalytics.StageLabel: the same prototype-key difference as HubSpotContact.StageLabel.
- HubSpotContactsTable.StageColor: a stage named after an object prototype member such as "constructor" finds the inherited, truthy value in the `colors` object of `getLifecycleStageColor`, so the badge class is that value's text; the model gives such a stage the grey class.
- HubSpotAnalytics.StageColor: the same prototype-key difference in the `colors` object of `getLifecycleStageColor` in `HubSpotAnalytics`; the model gives the grey class.
- HubSpotCharts.LeadStatusLabel: a lead status such as "constructor" finds the inherited value in the `labels` object of `getLeadStatusLabel`; the model returns the status itself.
- Tallies.Bump: models `(acc[k] || 0) + 1` as adding one for every key. For a prototype member such as "constructor", the `forEach` in `HubSpotAnalytics` and the `reduce` calls in `HubSpotChartsDashboard` start from the inherited value and concatenates text instead of counting; for "__proto__" the assignment changes nothing, so the key never appears.
- HubSpotAnalytics.CountContacts: built on Tallies.Bump, so a stage or a free-text company called "constructor" gets a count in the model where `HubSpotAnalytics` stores text, and one called "__proto__" is counted in the model but missing from `lifecycleDistribution` and `companyCounts`.
- HubSpotCharts.CountLabels: built on Tallies.Bump, with the same difference for chart labels named "constructor" or "__proto__".
- ActionPlanParser.TableGoal: the `businessArea in stageGoals` test of `getActionableSteps` is true for inherited members such as "constructor", which would yield an inherited value as the goal; the model treats such an area as missing and gives "Improve this business area".
- ActionPlans.ActionPlanService.SaveActionPlan, GetActionPlans, GetActionPlanById, UpdateActionPlan, MarkStepCompleted, MarkPlanCompleted and DeleteActionPlan: a storage error reported by the database is not modelled. The source logs it and returns null, [] or false with the table unchanged. The model fails only without a signed-in user, on a duplicate id or on an unknown plan or step.

## Findings

| source | as written | input that shows it | evidently intended | confidence | as-written member | corrected member |
|---|---|---|---|---|---|---|
| src/components/hubspot-ai-analysis.tsx:133 | the section split on `###`, optionally followed by a number and a dot, also matches the first three characters of a `####` subheading, so no subheading ever reaches the subsection split | "### A\n#### B\n- **x**: y" gives the sections "A" (content "#") and "B" | a `####` line stays inside its section and opens a subsection | not executed | AiAnalysis.AsWrittenNeverSplitsSubsections | AiAnalysis.ParseAnalysis |
| src/components/business-area-advisor.tsx:42 | the title emoji class has no `u` flag, so it matches the high surrogate of a title emoji alone and leaves the low surrogate | "🏆 Win" becomes the lone unit 0xDFC6 followed by " Win" | the whole emoji and the white space after it are removed | not executed | BusinessAreaAdvisor.StripEmojiUnitsSplitsEmoji | BusinessAreaAdvisor.Render |
