/**
 * The state of the saved-plans panel of `saved-action-plans.tsx`: the
 * loaded list, the selected plan, the loading flag and the error message,
 * and the handlers that replace them after a completion call.
 */
module SavedActionPlans {
  import opened Wrappers
  import opened ActionPlans

  /** How `actionPlanService.getActionPlans()` ended: a list, or a throw with an `Error`'s message or some other value. */
  datatype LoadOutcome = Loaded(plans: seq<ActionPlan>) | Threw(message: Option<string>)

  /** What the panel shows, in the order its early returns test. */
  datatype Screen = LoadingScreen | ErrorScreen(message: string) | EmptyScreen | PlanList(count: nat)

  /** `prev.map(plan => plan.id === planId ? updatedPlan : plan)`. */
  function ReplaceById(plans: seq<ActionPlan>, planId: string, updated: ActionPlan): (r: seq<ActionPlan>)
    ensures |r| == |plans|
  {
    seq(|plans|, i requires 0 <= i < |plans| => if plans[i].id == Some(planId) then updated else plans[i])
  }

  /** The list keeps its length and order: entries with this id become the new plan, the others stay as they were. */
  lemma ReplaceByIdEntries(plans: seq<ActionPlan>, planId: string, updated: ActionPlan)
    ensures forall i :: 0 <= i < |plans| && plans[i].id != Some(planId) ==> ReplaceById(plans, planId, updated)[i] == plans[i]
    ensures forall i :: 0 <= i < |plans| && plans[i].id == Some(planId) ==> ReplaceById(plans, planId, updated)[i] == updated
  {
  }

  /** Replacing with a plan that keeps its id a second time changes nothing more. */
  lemma ReplaceByIdIdempotent(plans: seq<ActionPlan>, planId: string, updated: ActionPlan)
    requires updated.id == Some(planId)
    ensures ReplaceById(ReplaceById(plans, planId, updated), planId, updated) == ReplaceById(plans, planId, updated)
  {
  }

  /** A list without the id is left as it is. */
  lemma ReplaceByIdAbsent(plans: seq<ActionPlan>, planId: string, updated: ActionPlan)
    requires forall i :: 0 <= i < |plans| ==> plans[i].id != Some(planId)
    ensures ReplaceById(plans, planId, updated) == plans
  {
  }

  /** `!step.completed`: "Mark Done" is offered while the step is not marked completed. */
  predicate MarkDoneOffered(step: ActionStep) {
    step.completed != Some(true)
  }

  /** `!selectedPlan.is_completed`: "Mark Complete" is offered while the plan is not marked completed. */
  predicate MarkCompleteOffered(plan: ActionPlan) {
    plan.isCompleted != Some(true)
  }

  class SavedActionPlansPanel {
    var actionPlans: seq<ActionPlan>
    var isLoading: bool
    var error: Option<string>
    var selectedPlan: Option<ActionPlan>

    /** The initial state: an empty list, loading, no error, nothing selected. */
    constructor()
      ensures actionPlans == [] && isLoading && error.None? && selectedPlan.None?
    {
      actionPlans := [];
      isLoading := true;
      error := None;
      selectedPlan := None;
    }

    /** The early returns of the component: loading, then a non-empty error, then an empty list. */
    function CurrentScreen(): (s: Screen)
      reads this
      ensures s.LoadingScreen? <==> isLoading
      ensures s.ErrorScreen? ==> error == Some(s.message) && s.message != ""
      ensures s.PlanList? ==> s.count == |actionPlans| > 0
    {
      if isLoading then LoadingScreen
      else if error.Some? && error.value != "" then ErrorScreen(error.value)
      else if |actionPlans| == 0 then EmptyScreen
      else PlanList(|actionPlans|)
    }

    /**
     * `loadActionPlans`: a list replaces the plans (an earlier error is
     * not cleared); a throw keeps the plans and records the message, or
     * the fixed text for a value that is not an `Error`. Loading ends either way.
     */
    method LoadActionPlans(outcome: LoadOutcome)
      modifies this
      ensures !isLoading && selectedPlan == old(selectedPlan)
      ensures outcome.Loaded? ==> actionPlans == outcome.plans && error == old(error)
      ensures outcome.Threw? ==> actionPlans == old(actionPlans)
                                 && error == Some(outcome.message.GetOr("Failed to load action plans"))
    {
      isLoading := true;
      match outcome {
        case Loaded(plans) =>
          actionPlans := plans;
        case Threw(message) =>
          error := Some(message.GetOr("Failed to load action plans"));
      }
      isLoading := false;
    }

    /** Clicking a plan in the list selects it. */
    method SelectPlan(plan: ActionPlan)
      modifies this
      ensures selectedPlan == Some(plan)
      ensures actionPlans == old(actionPlans) && isLoading == old(isLoading) && error == old(error)
    {
      selectedPlan := Some(plan);
    }

    /** The common tail of both completion handlers: nothing happens on `null`; otherwise the list and a matching selection are replaced. */
    method ApplyUpdated(planId: string, updatedPlan: Option<ActionPlan>)
      modifies this
      ensures updatedPlan.None? ==> actionPlans == old(actionPlans) && selectedPlan == old(selectedPlan)
      ensures updatedPlan.Some? ==> actionPlans == ReplaceById(old(actionPlans), planId, updatedPlan.value)
      ensures updatedPlan.Some? && old(selectedPlan).Some? && old(selectedPlan).value.id == Some(planId) ==>
                selectedPlan == updatedPlan
      ensures updatedPlan.None? || old(selectedPlan).None? || old(selectedPlan).value.id != Some(planId) ==>
                selectedPlan == old(selectedPlan)
      ensures isLoading == old(isLoading) && error == old(error)
    {
      if updatedPlan.Some? {
        actionPlans := ReplaceById(actionPlans, planId, updatedPlan.value);
        if selectedPlan.Some? && selectedPlan.value.id == Some(planId) {
          selectedPlan := updatedPlan;
        }
      }
    }

    /**
     * `handleMarkStepCompleted`: the service marks the step, then the panel
     * takes the plan it returns. `updatedPlan` is that answer, returned
     * here so that the new state can be stated in its terms.
     */
    method HandleMarkStepCompleted(service: ActionPlanService, user: Option<string>, planId: string, stepIndex: int, now: int)
      returns (updatedPlan: Option<ActionPlan>)
      requires service.Valid()
      modifies this, service
      ensures service.Valid()
      ensures isLoading == old(isLoading) && error == old(error)
      ensures updatedPlan.None? <==> old(service.GetActionPlanById(user, planId)).None?
      ensures updatedPlan.None? ==>
                actionPlans == old(actionPlans) && selectedPlan == old(selectedPlan)
                && service.rows == old(service.rows) && service.updateRequests == old(service.updateRequests)
      ensures updatedPlan.Some? ==>
                var p := old(service.GetActionPlanById(user, planId)).value;
                && StepMarked(p, updatedPlan.value, stepIndex, now)
                && (exists k :: 0 <= k < |old(service.rows)| && old(service.rows)[k] == p
                                && service.rows == old(service.rows)[k := updatedPlan.value])
                && service.updateRequests == old(service.updateRequests) + 1
                && actionPlans == ReplaceById(old(actionPlans), planId, updatedPlan.value)
      ensures updatedPlan.Some? && old(selectedPlan).Some? && old(selectedPlan).value.id == Some(planId) ==>
                selectedPlan == updatedPlan
      ensures updatedPlan.None? || old(selectedPlan).None? || old(selectedPlan).value.id != Some(planId) ==>
                selectedPlan == old(selectedPlan)
      ensures updatedPlan.Some? && old(selectedPlan).Some? && old(selectedPlan).value.id == Some(planId)
              && 0 <= stepIndex < |old(service.GetActionPlanById(user, planId)).value.steps| ==>
                stepIndex < |selectedPlan.value.steps| && !MarkDoneOffered(selectedPlan.value.steps[stepIndex])
    {
      updatedPlan := service.MarkStepCompleted(user, planId, stepIndex, now);
      ApplyUpdated(planId, updatedPlan);
    }

    /**
     * `handleMarkPlanCompleted`: the service sets the plan-level flag, then
     * the panel takes the plan it returns, given back as `updatedPlan`.
     */
    method HandleMarkPlanCompleted(service: ActionPlanService, user: Option<string>, planId: string, now: int)
      returns (updatedPlan: Option<ActionPlan>)
      requires service.Valid()
      modifies this, service
      ensures service.Valid()
      ensures isLoading == old(isLoading) && error == old(error)
      ensures service.updateRequests == old(service.updateRequests) + (if user.Some? then 1 else 0)
      ensures updatedPlan.None? <==> old(service.GetActionPlanById(user, planId)).None?
      ensures updatedPlan.None? ==>
                actionPlans == old(actionPlans) && selectedPlan == old(selectedPlan) && service.rows == old(service.rows)
      ensures updatedPlan.Some? ==>
                var p := old(service.GetActionPlanById(user, planId)).value;
                && updatedPlan.value == p.(isCompleted := Some(true), completedAt := Some(now))
                && (exists k :: 0 <= k < |old(service.rows)| && old(service.rows)[k] == p
                                && service.rows == old(service.rows)[k := updatedPlan.value])
                && actionPlans == ReplaceById(old(actionPlans), planId, updatedPlan.value)
      ensures updatedPlan.Some? && old(selectedPlan).Some? && old(selectedPlan).value.id == Some(planId) ==>
                selectedPlan == updatedPlan && !MarkCompleteOffered(selectedPlan.value)
      ensures updatedPlan.None? || old(selectedPlan).None? || old(selectedPlan).value.id != Some(planId) ==>
                selectedPlan == old(selectedPlan)
    {
      updatedPlan := service.MarkPlanCompleted(user, planId, now);
      ApplyUpdated(planId, updatedPlan);
    }
  }
}
