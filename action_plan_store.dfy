/**
 * The action-plan service of `action-plans.ts`: owner-scoped create, read,
 * update and delete over the `action_plans` table. The table is an
 * in-memory sequence of rows in insertion order; the signed-in user, the
 * clock and the id the database gives a new row are parameters.
 */
module ActionPlans {
  import opened Wrappers
  import opened StableSort
  import ActionPlanParser

  /** One stored step; `completed` and `completedAt` are absent until set. Timestamps are integers. */
  datatype ActionStep = ActionStep(
    action: string,
    priority: ActionPlanParser.Priority,
    timeframe: string,
    resources: Option<string>,
    completed: Option<bool>,
    completedAt: Option<int>)

  /** A row of `action_plans`, or a plan on its way to becoming one. */
  datatype ActionPlan = ActionPlan(
    id: Option<string>,
    userId: Option<string>,
    stage: string,
    businessArea: string,
    goal: string,
    currentSituation: Option<string>,
    context: Option<string>,
    steps: seq<ActionStep>,
    createdAt: Option<int>,
    isCompleted: Option<bool>,
    completedAt: Option<int>)

  /** What `saveActionPlan` is given: a plan without id, owner and timestamps. */
  datatype NewPlan = NewPlan(
    stage: string,
    businessArea: string,
    goal: string,
    currentSituation: Option<string>,
    context: Option<string>,
    steps: seq<ActionStep>,
    isCompleted: Option<bool>,
    completedAt: Option<int>)

  /** The fields of a `Partial<ActionPlan>` that the service's callers update. */
  datatype PlanUpdate = PlanUpdate(steps: Option<seq<ActionStep>>, isCompleted: Option<bool>, completedAt: Option<int>)

  predicate IsRow(p: ActionPlan) {
    p.id.Some? && p.userId.Some? && p.createdAt.Some?
  }

  /** Every row has an id, an owner and a creation time, and no two rows share an id. */
  ghost predicate Table(rows: seq<ActionPlan>) {
    && (forall i :: 0 <= i < |rows| ==> IsRow(rows[i]))
    && (forall i, j :: 0 <= i < j < |rows| ==> rows[i].id != rows[j].id)
  }

  predicate OwnedRow(p: ActionPlan, id: string, user: string) {
    p.id == Some(id) && p.userId == Some(user)
  }

  /** The row that `.eq('id', id).eq('user_id', user)` selects, by position. */
  function FindOwned(rows: seq<ActionPlan>, id: string, user: string): (r: Option<nat>)
    ensures r.Some? ==> r.value < |rows| && OwnedRow(rows[r.value], id, user)
    ensures r.None? ==> forall i :: 0 <= i < |rows| ==> !OwnedRow(rows[i], id, user)
  {
    if |rows| == 0 then None
    else if OwnedRow(rows[|rows| - 1], id, user) then Some(|rows| - 1)
    else FindOwned(rows[..|rows| - 1], id, user)
  }

  /** `.eq('user_id', user)`: the rows of one owner, in table order. */
  function OwnedBy(rows: seq<ActionPlan>, user: string): (r: seq<ActionPlan>)
    ensures forall p :: p in r ==> p in rows && p.userId == Some(user)
  {
    if |rows| == 0 then []
    else OwnedBy(rows[..|rows| - 1], user) + (if rows[|rows| - 1].userId == Some(user) then [rows[|rows| - 1]] else [])
  }

  lemma {:induction false} OwnedByComplete(rows: seq<ActionPlan>, user: string, p: ActionPlan)
    requires p in rows && p.userId == Some(user)
    ensures p in OwnedBy(rows, user)
    decreases |rows|
  {
    if rows[|rows| - 1] != p {
      assert rows == rows[..|rows| - 1] + [rows[|rows| - 1]];
      OwnedByComplete(rows[..|rows| - 1], user, p);
    }
  }

  /** The rows not owned by `user`: what no call made by `user` may change. */
  function NotOwnedBy(rows: seq<ActionPlan>, user: string): (r: seq<ActionPlan>)
    ensures forall p :: p in r ==> p in rows && p.userId != Some(user)
  {
    if |rows| == 0 then []
    else NotOwnedBy(rows[..|rows| - 1], user) + (if rows[|rows| - 1].userId != Some(user) then [rows[|rows| - 1]] else [])
  }

  lemma {:induction false} NotOwnedByUpdate(rows: seq<ActionPlan>, user: string, k: nat, p: ActionPlan)
    requires k < |rows| && rows[k].userId == Some(user) && p.userId == Some(user)
    ensures NotOwnedBy(rows[k := p], user) == NotOwnedBy(rows, user)
    decreases |rows|
  {
    if k < |rows| - 1 {
      assert rows[k := p][..|rows| - 1] == rows[..|rows| - 1][k := p];
      NotOwnedByUpdate(rows[..|rows| - 1], user, k, p);
    } else {
      assert rows[k := p][..|rows| - 1] == rows[..|rows| - 1];
    }
  }

  lemma NotOwnedBySnoc(rows: seq<ActionPlan>, user: string, p: ActionPlan)
    ensures NotOwnedBy(rows + [p], user) == NotOwnedBy(rows, user) + (if p.userId != Some(user) then [p] else [])
  {
    assert (rows + [p])[..|rows + [p]| - 1] == rows;
  }

  /** Deleting the rows `.eq('id', id).eq('user_id', user)` selects. */
  function Without(rows: seq<ActionPlan>, id: string, user: string): (r: seq<ActionPlan>)
    ensures |r| <= |rows|
  {
    if |rows| == 0 then []
    else Without(rows[..|rows| - 1], id, user) + (if OwnedRow(rows[|rows| - 1], id, user) then [] else [rows[|rows| - 1]])
  }

  /** Delete removes exactly the selected row: every other row stays, and nothing else appears. */
  lemma {:induction false} WithoutMembers(rows: seq<ActionPlan>, id: string, user: string)
    ensures forall p :: p in Without(rows, id, user) <==> p in rows && !OwnedRow(p, id, user)
    decreases |rows|
  {
    if |rows| > 0 {
      var init, last := rows[..|rows| - 1], rows[|rows| - 1];
      WithoutMembers(init, id, user);
      assert rows == init + [last];
    }
  }

  lemma {:induction false} WithoutKeepsOthers(rows: seq<ActionPlan>, id: string, user: string)
    ensures NotOwnedBy(Without(rows, id, user), user) == NotOwnedBy(rows, user)
    decreases |rows|
  {
    if |rows| > 0 {
      var init, last := rows[..|rows| - 1], rows[|rows| - 1];
      WithoutKeepsOthers(init, id, user);
      var rest := Without(init, id, user);
      assert NotOwnedBy(rows, user) == NotOwnedBy(init, user) + (if last.userId != Some(user) then [last] else []);
      if OwnedRow(last, id, user) {
        assert Without(rows, id, user) == rest + [] == rest;
      } else {
        assert Without(rows, id, user) == rest + [last];
        NotOwnedBySnoc(rest, user, last);
      }
    }
  }

  lemma {:induction false} WithoutKeepsTable(rows: seq<ActionPlan>, id: string, user: string)
    requires Table(rows)
    ensures Table(Without(rows, id, user))
    decreases |rows|
  {
    if |rows| > 0 {
      var init := rows[..|rows| - 1];
      assert Table(init);
      WithoutKeepsTable(init, id, user);
      var rest := Without(init, id, user);
      var r := Without(rows, id, user);
      WithoutMembers(init, id, user);
      forall i, j | 0 <= i < j < |r|
        ensures r[i].id != r[j].id
      {
        if j == |rest| {
          assert r[i] in init;
        }
      }
    }
  }

  /** The sort key of `.order('created_at', { ascending: false })`. */
  function CreatedKey(p: ActionPlan): SortKey {
    Num(p.createdAt.GetOr(0))
  }

  /** `updateActionPlan`'s effect on a row: the given fields replace the stored ones. */
  function Apply(p: ActionPlan, u: PlanUpdate): (r: ActionPlan)
    ensures r.steps == (if u.steps.Some? then u.steps.value else p.steps)
    ensures r.isCompleted == (if u.isCompleted.Some? then u.isCompleted else p.isCompleted)
    ensures r.completedAt == (if u.completedAt.Some? then u.completedAt else p.completedAt)
    ensures r.(steps := p.steps, isCompleted := p.isCompleted, completedAt := p.completedAt) == p
  {
    p.(steps := u.steps.GetOr(p.steps),
       isCompleted := if u.isCompleted.Some? then u.isCompleted else p.isCompleted,
       completedAt := if u.completedAt.Some? then u.completedAt else p.completedAt)
  }

  /** The row `saveActionPlan` inserts: owner stamped, `is_completed || false`, and `completed_at` not copied. */
  function Inserted(plan: NewPlan, user: string, id: string, now: int): (r: ActionPlan)
    ensures IsRow(r) && r.id == Some(id) && r.userId == Some(user) && r.createdAt == Some(now)
    ensures r.isCompleted == Some(plan.isCompleted == Some(true))
    ensures r.completedAt.None?
    ensures r.stage == plan.stage && r.businessArea == plan.businessArea && r.goal == plan.goal
    ensures r.currentSituation == plan.currentSituation && r.context == plan.context && r.steps == plan.steps
  {
    ActionPlan(Some(id), Some(user), plan.stage, plan.businessArea, plan.goal, plan.currentSituation,
               plan.context, plan.steps, Some(now), Some(plan.isCompleted == Some(true)), None)
  }

  /** The step `markStepCompleted` writes at the chosen index. */
  function Completed(s: ActionStep, now: int): (r: ActionStep)
    ensures r.completed == Some(true) && r.completedAt == Some(now)
    ensures r.(completed := s.completed, completedAt := s.completedAt) == s
  {
    s.(completed := Some(true), completedAt := Some(now))
  }

  /**
   * The service object. `rows` is the table; `updateRequests` counts the
   * update queries sent, so that a write that changes nothing is still seen.
   */
  /**
   * `q` is `p` with the step at `stepIndex` completed at `now` when that
   * index is in range, and otherwise unchanged.
   */
  predicate StepMarked(p: ActionPlan, q: ActionPlan, stepIndex: int, now: int) {
    && q.(steps := p.steps) == p
    && |q.steps| == |p.steps|
    && (forall j :: 0 <= j < |p.steps| && j != stepIndex ==> q.steps[j] == p.steps[j])
    && (0 <= stepIndex < |p.steps| ==> q.steps[stepIndex] == Completed(p.steps[stepIndex], now))
  }

  class ActionPlanService {
    var rows: seq<ActionPlan>
    var updateRequests: nat

    ghost predicate Valid()
      reads this
    {
      Table(rows)
    }

    constructor()
      ensures Valid() && rows == [] && updateRequests == 0
    {
      rows := [];
      updateRequests := 0;
    }

    /**
     * `saveActionPlan`: no signed-in user, or an id already taken (the
     * insert fails), gives `None` and no change; otherwise the new row is
     * appended and returned.
     */
    method SaveActionPlan(user: Option<string>, plan: NewPlan, newId: string, now: int) returns (r: Option<ActionPlan>)
      requires Valid()
      modifies this
      ensures Valid() && updateRequests == old(updateRequests)
      ensures user.None? || (exists i :: 0 <= i < |old(rows)| && old(rows)[i].id == Some(newId)) ==>
                r.None? && rows == old(rows)
      ensures r.Some? <==> user.Some? && forall i :: 0 <= i < |old(rows)| ==> old(rows)[i].id != Some(newId)
      ensures r.Some? ==> user.Some? && r.value == Inserted(plan, user.value, newId, now) && rows == old(rows) + [r.value]
      ensures user.Some? ==> NotOwnedBy(rows, user.value) == NotOwnedBy(old(rows), user.value)
    {
      if user.None? {
        return None;
      }
      var i := 0;
      while i < |rows|
        invariant 0 <= i <= |rows|
        invariant forall k :: 0 <= k < i ==> rows[k].id != Some(newId)
      {
        if rows[i].id == Some(newId) {
          return None;
        }
        i := i + 1;
      }
      var row := Inserted(plan, user.value, newId, now);
      NotOwnedBySnoc(rows, user.value, row);
      rows := rows + [row];
      r := Some(row);
    }

    /** `getActionPlans`: the caller's rows, newest first; none without a signed-in user. */
    function GetActionPlans(user: Option<string>): (r: seq<ActionPlan>)
      reads this
      ensures user.None? ==> r == []
      ensures forall p :: p in r ==> p in rows && p.userId == user
    {
      if user.None? then []
      else
        var mine := OwnedBy(rows, user.value);
        SortByPermutes(mine, CreatedKey, Desc);
        assert forall p :: p in SortBy(mine, CreatedKey, Desc) ==> p in multiset(mine);
        SortBy(mine, CreatedKey, Desc)
    }

    /** `getActionPlanById`: found only when both the id and the owner match. */
    function GetActionPlanById(user: Option<string>, id: string): (r: Option<ActionPlan>)
      reads this
      ensures r.Some? <==> user.Some? && exists i :: 0 <= i < |rows| && OwnedRow(rows[i], id, user.value)
      ensures r.Some? ==> r.value in rows && OwnedRow(r.value, id, user.value)
    {
      if user.None? then None
      else
        match FindOwned(rows, id, user.value)
        case None => None
        case Some(k) => Some(rows[k])
    }

    /**
     * `updateActionPlan`: with a signed-in user the query is sent; the row
     * with this id and owner, if any, gets the update and is returned.
     */
    method UpdateActionPlan(user: Option<string>, id: string, u: PlanUpdate) returns (r: Option<ActionPlan>)
      requires Valid()
      modifies this
      ensures Valid()
      ensures updateRequests == old(updateRequests) + (if user.Some? then 1 else 0)
      ensures r.None? <==> old(GetActionPlanById(user, id)).None?
      ensures r.None? ==> rows == old(rows)
      ensures r.Some? ==> r.value == Apply(old(GetActionPlanById(user, id)).value, u)
      ensures r.Some? ==> exists k :: 0 <= k < |old(rows)| && old(rows)[k] == old(GetActionPlanById(user, id)).value
                                      && rows == old(rows)[k := r.value]
      ensures user.Some? ==> NotOwnedBy(rows, user.value) == NotOwnedBy(old(rows), user.value)
    {
      if user.None? {
        return None;
      }
      updateRequests := updateRequests + 1;
      var k := FindOwned(rows, id, user.value);
      if k.None? {
        return None;
      }
      var row := Apply(rows[k.value], u);
      NotOwnedByUpdate(rows, user.value, k.value, row);
      rows := rows[k.value := row];
      r := Some(row);
    }

    /**
     * `markStepCompleted`: reads the plan, copies its steps, marks the
     * step at `stepIndex` when that index is in range, and writes the
     * steps back. An unreadable plan gives `None` and sends no update.
     */
    method MarkStepCompleted(user: Option<string>, planId: string, stepIndex: int, now: int) returns (r: Option<ActionPlan>)
      requires Valid()
      modifies this
      ensures Valid()
      ensures old(GetActionPlanById(user, planId)).None? ==>
                r.None? && rows == old(rows) && updateRequests == old(updateRequests)
      ensures old(GetActionPlanById(user, planId)).Some? ==>
                var p := old(GetActionPlanById(user, planId)).value;
                && updateRequests == old(updateRequests) + 1
                && r.Some? && StepMarked(p, r.value, stepIndex, now)
                && (exists k :: 0 <= k < |old(rows)| && old(rows)[k] == p && rows == old(rows)[k := r.value])
      ensures user.Some? ==> NotOwnedBy(rows, user.value) == NotOwnedBy(old(rows), user.value)
    {
      var current := GetActionPlanById(user, planId);
      if current.None? {
        return None;
      }
      var updatedSteps := current.value.steps;
      if 0 <= stepIndex < |updatedSteps| {
        updatedSteps := updatedSteps[stepIndex := Completed(updatedSteps[stepIndex], now)];
      }
      r := UpdateActionPlan(user, planId, PlanUpdate(Some(updatedSteps), None, None));
    }

    /** `markPlanCompleted`: an update of the plan-level flag and time only; the steps are neither read nor written. */
    method MarkPlanCompleted(user: Option<string>, id: string, now: int) returns (r: Option<ActionPlan>)
      requires Valid()
      modifies this
      ensures Valid()
      ensures updateRequests == old(updateRequests) + (if user.Some? then 1 else 0)
      ensures r.None? <==> old(GetActionPlanById(user, id)).None?
      ensures r.None? ==> rows == old(rows)
      ensures r.Some? ==> var p := old(GetActionPlanById(user, id)).value;
                && r.value == p.(isCompleted := Some(true), completedAt := Some(now))
                && exists k :: 0 <= k < |old(rows)| && old(rows)[k] == p && rows == old(rows)[k := r.value]
      ensures user.Some? ==> NotOwnedBy(rows, user.value) == NotOwnedBy(old(rows), user.value)
    {
      r := UpdateActionPlan(user, id, PlanUpdate(None, Some(true), Some(now)));
    }

    /** `deleteActionPlan`: `false` without a signed-in user; otherwise the matching row, if any, goes and the answer is `true`. */
    method DeleteActionPlan(user: Option<string>, id: string) returns (ok: bool)
      requires Valid()
      modifies this
      ensures Valid() && updateRequests == old(updateRequests)
      ensures ok <==> user.Some?
      ensures !ok ==> rows == old(rows)
      ensures ok ==> rows == Without(old(rows), id, user.value)
      ensures user.Some? ==> NotOwnedBy(rows, user.value) == NotOwnedBy(old(rows), user.value)
    {
      if user.None? {
        return false;
      }
      WithoutKeepsTable(rows, id, user.value);
      WithoutKeepsOthers(rows, id, user.value);
      rows := Without(rows, id, user.value);
      ok := true;
    }
  }

  /** `getActionPlans` lists every plan of the caller once and no other, newest `created_at` first. */
  lemma GetActionPlansNewestFirst(s: ActionPlanService, user: string)
    ensures var r := s.GetActionPlans(Some(user));
            && multiset(r) == multiset(OwnedBy(s.rows, user))
            && (forall i, j :: 0 <= i < j < |r| ==> r[i].createdAt.GetOr(0) >= r[j].createdAt.GetOr(0))
            && (forall p :: p in s.rows && p.userId == Some(user) ==> p in r)
  {
    var mine := OwnedBy(s.rows, user);
    var r := s.GetActionPlans(Some(user));
    SortByPermutes(mine, CreatedKey, Desc);
    SortBySorted(mine, CreatedKey, Desc);
    forall p | p in s.rows && p.userId == Some(user)
      ensures p in r
    {
      OwnedByComplete(s.rows, user, p);
      assert p in multiset(r);
    }
  }
}
