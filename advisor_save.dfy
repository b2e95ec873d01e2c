/**
 * The non-rendering parts of `business-area-advisor.tsx` besides the
 * action renderer: the priority colour and icon lookups, and
 * `handleSaveActionPlan`, which turns the advice into a stored plan.
 */
module AdvisorSave {
  import opened Wrappers
  import opened ActionPlanParser
  import ActionableSteps
  import ActionPlans

  /** The priority strings the lookups know, as steps carry them. */
  function PriorityName(p: Priority): (r: string)
    ensures r in KnownPriorities()
  {
    match p
    case High => "high"
    case Medium => "medium"
    case Low => "low"
  }

  function KnownPriorities(): set<string> {
    {"high", "medium", "low"}
  }

  const GreyBadge := "bg-gray-100 text-gray-800 border-gray-200"
  const WhiteCircle := "⚪"

  /** `getPriorityColor`: red, yellow and green badges for the three priorities, grey for anything else. */
  function PriorityColor(priority: string): (r: string)
    ensures r == GreyBadge <==> priority !in KnownPriorities()
  {
    match priority
    case "high" => "bg-red-100 text-red-800 border-red-200"
    case "medium" => "bg-yellow-100 text-yellow-800 border-yellow-200"
    case "low" => "bg-green-100 text-green-800 border-green-200"
    case _ => GreyBadge
  }

  /** `getPriorityIcon`: red, yellow and green circles for the three priorities, a white circle for anything else. */
  function PriorityIcon(priority: string): (r: string)
    ensures r == WhiteCircle <==> priority !in KnownPriorities()
  {
    match priority
    case "high" => "\U{1F534}"
    case "medium" => "\U{1F7E1}"
    case "low" => "\U{1F7E2}"
    case _ => WhiteCircle
  }

  /** Every priority a step can carry gets its own colour and its own icon, never the fallback. */
  lemma StepPrioritiesAreDistinguished(p: Priority, q: Priority)
    ensures PriorityColor(PriorityName(p)) != GreyBadge && PriorityIcon(PriorityName(p)) != WhiteCircle
    ensures p != q ==> PriorityColor(PriorityName(p)) != PriorityColor(PriorityName(q))
    ensures p != q ==> PriorityIcon(PriorityName(p)) != PriorityIcon(PriorityName(q))
  {
  }

  /** A step as `handleSaveActionPlan` stores it: the same four fields, not yet completed. */
  function StoredStep(s: Step): (r: ActionPlans.ActionStep)
    ensures r.completed == Some(false) && r.completedAt.None?
  {
    ActionPlans.ActionStep(s.action, s.priority, s.timeframe, s.resources, Some(false), None)
  }

  /** Reading a stored step back as advice. */
  function AdviceStep(a: ActionPlans.ActionStep): Step {
    Step(a.action, a.priority, a.timeframe, a.resources)
  }

  function StoredSteps(steps: seq<Step>): (r: seq<ActionPlans.ActionStep>)
    ensures |r| == |steps|
  {
    seq(|steps|, i requires 0 <= i < |steps| => StoredStep(steps[i]))
  }

  /** Saving loses nothing: reading the stored steps back gives the advice's steps, in order, and none is completed. */
  lemma StoredStepsRoundTrip(steps: seq<Step>)
    ensures seq(|steps|, i requires 0 <= i < |steps| => AdviceStep(StoredSteps(steps)[i])) == steps
    ensures forall i :: 0 <= i < |steps| ==> StoredSteps(steps)[i].completed == Some(false)
  {
  }

  /**
   * The plan `handleSaveActionPlan` hands to the service, or `None` when
   * the advice has no steps and saving is skipped.
   */
  function PlanToSave(stage: string, area: string, situation: string, context: Option<string>, advice: Plan): (r: Option<ActionPlans.NewPlan>)
    ensures r.None? <==> |advice.steps| == 0
    ensures r.Some? ==> r.value.isCompleted == Some(false) && r.value.goal == advice.goal
                        && r.value.stage == stage && r.value.businessArea == area
                        && r.value.currentSituation == Some(situation) && r.value.context == context
  {
    if |advice.steps| == 0 then None
    else Some(ActionPlans.NewPlan(stage, area, advice.goal, Some(situation), context,
                                  StoredSteps(advice.steps), Some(false), None))
  }

  /** Advice read from a formatted-text reply always has a step, so it is always offered for saving. */
  lemma TextAdviceIsSaved(stage: string, area: string, situation: string, context: Option<string>, response: string,
                          parsed: Option<ActionableSteps.JsonValue>)
    requires parsed.None? || parsed.value.JsonNull?
    ensures PlanToSave(stage, area, situation, context,
                       ActionableSteps.GetActionableSteps(stage, area, response, parsed)).Some?
  {
    ActionableSteps.TextReplyPlan(stage, area, response, parsed);
  }

  /**
   * `handleSaveActionPlan` with the service: nothing happens without steps;
   * otherwise the plan is saved for the signed-in user, and a stored row is
   * what the advisor keeps as its saved plan.
   */
  method HandleSaveActionPlan(service: ActionPlans.ActionPlanService, user: Option<string>,
                              stage: string, area: string, situation: string, context: Option<string>, advice: Plan,
                              newId: string, now: int)
    returns (savedPlan: Option<ActionPlans.ActionPlan>)
    requires service.Valid()
    modifies service
    ensures service.Valid()
    ensures |advice.steps| == 0 ==> savedPlan.None? && service.rows == old(service.rows)
    ensures savedPlan.Some? <==>
              |advice.steps| > 0 && user.Some?
              && forall i :: 0 <= i < |old(service.rows)| ==> old(service.rows)[i].id != Some(newId)
    ensures savedPlan.None? ==> service.rows == old(service.rows)
    ensures savedPlan.Some? ==>
              && user.Some?
              && savedPlan.value == ActionPlans.Inserted(PlanToSave(stage, area, situation, context, advice).value, user.value, newId, now)
              && service.rows == old(service.rows) + [savedPlan.value]
              && savedPlan.value.isCompleted == Some(false)
  {
    var plan := PlanToSave(stage, area, situation, context, advice);
    if plan.None? {
      return None;
    }
    savedPlan := service.SaveActionPlan(user, plan.value, newId, now);
  }
}
