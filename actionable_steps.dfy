/**
 * `getActionableSteps`: the goal taken from the stage-goal table, then the
 * model's reply read as JSON when it parses and as formatted text
 * otherwise. The call to the model is left out: its reply is a parameter,
 * and so is what `JSON.parse` makes of it.
 */
module ActionableSteps {
  import opened Wrappers
  import opened Text
  import opened ActionPlanParser
  import opened ActionPlanProperties

  /**
   * What `JSON.parse` returned. `null` is kept apart because reading a
   * property of it throws inside the `try`, which sends the reply to the
   * text parser. Every other value is seen through its `goal` and `steps`
   * properties; a number, a string or an array has neither.
   */
  datatype JsonValue = JsonNull | JsonObject(goal: Option<string>, steps: Option<seq<Step>>)

  /**
   * `getActionableSteps(stage, businessArea, ...)` once the reply is known;
   * `parsed` is `None` when `JSON.parse` throws. `parsed.goal || goal`
   * treats the empty string as missing; `parsed.steps || []` keeps an
   * empty array, which is truthy.
   */
  function GetActionableSteps(stage: string, area: string, response: string, parsed: Option<JsonValue>): (plan: Plan)
    ensures |plan.steps| == 0 ==> parsed.Some? && parsed.value.JsonObject?
  {
    var goal := TableGoal(stage, area);
    match parsed
    case Some(JsonObject(g, steps)) =>
      Plan(if g.Some? && g.value != "" then g.value else goal, steps.GetOr([]))
    case _ =>
      ParseTextSteps(response, goal);
      ParseText(response, goal)
  }

  /**
   * A reply that parses to an object gives its `goal` unless that is
   * missing or empty, and its `steps`, possibly none, else no steps.
   */
  lemma JsonReplyPlan(stage: string, area: string, response: string, goal: Option<string>, steps: Option<seq<Step>>)
    ensures var plan := GetActionableSteps(stage, area, response, Some(JsonObject(goal, steps)));
            && plan.steps == (if steps.Some? then steps.value else [])
            && plan.goal == (if goal.Some? && goal.value != "" then goal.value else TableGoal(stage, area))
  {
  }

  /** Any other reply is read as formatted text starting from the table goal, and then has at least one step. */
  lemma TextReplyPlan(stage: string, area: string, response: string, parsed: Option<JsonValue>)
    requires parsed.None? || parsed.value.JsonNull?
    ensures GetActionableSteps(stage, area, response, parsed) == ParseText(response, TableGoal(stage, area))
    ensures |GetActionableSteps(stage, area, response, parsed).steps| >= 1
  {
    ParseTextSteps(response, TableGoal(stage, area));
  }
}
