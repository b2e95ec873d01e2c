/**
 * The dashboard page's bookkeeping: its own stage rule over the growth
 * stage table, the integer part of the sales targets towards the next
 * stage, the sales action points, the Core Four checklist, the task list
 * with its completion map, and the task filters.
 */
module Dashboard {
  import opened Wrappers
  import opened GrowthStages
  import opened Text
  import Seqs
  import CompanyInfo
  import opened Numbers

  // ---------------------------------------------------------------------
  // Stage selection
  // ---------------------------------------------------------------------

  /** The inclusive revenue range `[revenue_min, revenue_max]`; a missing maximum is unbounded. */
  predicate HoldsRevenue(s: Stage, revenue: int) {
    s.revenueMin <= revenue && (s.revenueMax.None? || revenue <= s.revenueMax.value)
  }

  /** `headcountMatches`: the stages whose headcount range holds the headcount, in table order. */
  function HeadcountMatches(headcount: int): (r: seq<Stage>)
    ensures |r| <= |Stages|
  {
    Seqs.Filter((s: Stage) => HoldsHeadcount(s, headcount), Stages)
  }

  /**
   * `getCurrentStage`: a single headcount match wins; among several, the
   * first whose revenue range holds the revenue, else the first of them;
   * `None` (JavaScript's `undefined`) when no headcount range holds.
   */
  function CurrentStage(headcount: int, revenue: int): (r: Option<Stage>)
    ensures r.Some? ==> r.value in Stages && HoldsHeadcount(r.value, headcount)
  {
    var matches := HeadcountMatches(headcount);
    var r :=
      if |matches| == 1 then Some(matches[0])
      else match Seqs.FindIndex((s: Stage) => HoldsRevenue(s, revenue), matches)
           case Some(i) => Some(matches[i])
           case None => if |matches| > 0 then Some(matches[0]) else None;
    if r.Some? then
      Seqs.FilterMembers((s: Stage) => HoldsHeadcount(s, headcount), Stages, r.value);
      r
    else r
  }

  /** From two to 500 people exactly one stage matches the headcount. */
  lemma HeadcountMatchesOne(headcount: int) returns (i: nat)
    requires 2 <= headcount <= 500
    ensures i < |Stages| && HeadcountMatches(headcount) == [Stages[i]]
  {
    var p := (s: Stage) => HoldsHeadcount(s, headcount);
    HeadcountsCover(headcount);
    i :| 0 <= i < |Stages| && HoldsHeadcount(Stages[i], headcount);
    forall j | 0 <= j < |Stages| && j != i
      ensures !p(Stages[j])
    {
      if p(Stages[j]) {
        OneStagePerHeadcount(headcount, i, j);
      }
    }
    Seqs.FilterSingle(p, Stages, i);
  }

  /** Every one of the first `3 + headcount` stages matches zero or one person. */
  lemma SmallStagesMatch(headcount: int)
    requires 0 <= headcount <= 1
    ensures var n := 3 + headcount;
            Seqs.Filter((s: Stage) => HoldsHeadcount(s, headcount), Stages[..n]) == Stages[..n]
  {
    var n := 3 + headcount;
    HeadcountRanges();
    forall i | 0 <= i < n
      ensures HoldsHeadcount(Stages[..n][i], headcount)
    {
      assert Stages[..n][i] == Stages[i];
    }
    Seqs.FilterAll((s: Stage) => HoldsHeadcount(s, headcount), Stages[..n]);
  }

  /** None of the later stages matches zero or one person. */
  lemma LargeStagesSkip(headcount: int)
    requires 0 <= headcount <= 1
    ensures var n := 3 + headcount;
            Seqs.Filter((s: Stage) => HoldsHeadcount(s, headcount), Stages[n..]) == []
  {
    var n := 3 + headcount;
    HeadcountRanges();
    forall i | 0 <= i < |Stages[n..]|
      ensures !HoldsHeadcount(Stages[n..][i], headcount)
    {
      assert Stages[n..][i] == Stages[n + i];
    }
    Seqs.FilterNone((s: Stage) => HoldsHeadcount(s, headcount), Stages[n..]);
  }

  /** Zero people match the first three stages and one person the first four. */
  lemma HeadcountMatchesSmall(headcount: int)
    requires 0 <= headcount <= 1
    ensures HeadcountMatches(headcount) == Stages[..3 + headcount]
  {
    var n := 3 + headcount;
    assert Stages == Stages[..n] + Stages[n..];
    Seqs.FilterAppend((s: Stage) => HoldsHeadcount(s, headcount), Stages[..n], Stages[n..]);
    SmallStagesMatch(headcount);
    LargeStagesSkip(headcount);
  }

  /** Outside 0 to 500 people no stage matches. */
  lemma HeadcountMatchesNone(headcount: int)
    requires headcount < 0 || 500 < headcount
    ensures HeadcountMatches(headcount) == []
  {
    HeadcountsCover(headcount);
    Seqs.FilterNone((s: Stage) => HoldsHeadcount(s, headcount), Stages);
  }

  /** The stages a headcount matches, for every headcount: one stage from two people up, several below, none outside 0 to 500. */
  lemma HeadcountMatchesAre(headcount: int)
    ensures 2 <= headcount <= 500 ==>
              exists i :: 0 <= i < |Stages| && HeadcountMatches(headcount) == [Stages[i]]
    ensures 0 <= headcount <= 1 ==> HeadcountMatches(headcount) == Stages[..3 + headcount]
    ensures headcount < 0 || 500 < headcount ==> HeadcountMatches(headcount) == []
  {
    if 2 <= headcount <= 500 {
      var i := HeadcountMatchesOne(headcount);
    } else if 0 <= headcount <= 1 {
      HeadcountMatchesSmall(headcount);
    } else {
      HeadcountMatchesNone(headcount);
    }
  }

  /** From two to 500 people the stage is the one whose headcount range holds, whatever the revenue. */
  lemma CurrentStageIgnoresRevenue(headcount: int, revenue: int)
    requires 2 <= headcount <= 500
    ensures CurrentStage(headcount, revenue).Some?
    ensures CurrentStage(headcount, revenue) == CurrentStage(headcount, 0)
  {
    var i := HeadcountMatchesOne(headcount);
  }

  /**
   * For zero or one person the stage is the first of the small stages whose
   * inclusive revenue range holds the revenue, else Improvise.
   */
  lemma CurrentStageForSmallTeams(headcount: int, revenue: int)
    requires 0 <= headcount <= 1
    ensures CurrentStage(headcount, revenue) ==
              match Seqs.FindIndex((s: Stage) => HoldsRevenue(s, revenue), Stages[..3 + headcount])
              case Some(j) => Some(Stages[j])
              case None => Some(Stages[0])
  {
    HeadcountMatchesSmall(headcount);
  }

  /** There is no stage exactly outside 0 to 500 people. */
  lemma CurrentStageUndefined(headcount: int, revenue: int)
    ensures CurrentStage(headcount, revenue).None? <==> headcount < 0 || 500 < headcount
  {
    HeadcountMatchesAre(headcount);
  }

  /** A revenue equal to a small stage's upper bound keeps the lower stage, where the company-info page moves up. */
  lemma UpperBoundIsInclusive()
    ensures CurrentStage(0, 50000) == Some(Stages[0])
    ensures CompanyInfo.CurrentStage(0, 50000) == Stages[1]
  {
    CurrentStageForSmallTeams(0, 50000);
    CompanyInfo.CurrentStageIsFirstFit(0, 50000);
  }

  /** The dashboard puts the starting values, four people and no revenue, in Stabilize. */
  lemma StartingStage()
    ensures CurrentStage(4, 0) == Some(Stages[3])
  {
    var i := HeadcountMatchesOne(4);
  }

  /** The two pages disagree on the starting values: Stabilize here, Improvise on the company-info page. */
  lemma PagesDisagreeOnStartingValues()
    ensures CurrentStage(4, 0).value.name == "Stabilize"
    ensures CompanyInfo.CurrentStage(4, 0).name == "Improvise"
  {
    StartingStage();
    CompanyInfo.StartingValuesFallBack();
  }

  /** `getNextStage`: none without a current stage or from the last stage on; otherwise the stage with the next id. */
  function NextStage(headcount: int, revenue: int): (r: Option<Stage>)
    ensures var c := CurrentStage(headcount, revenue);
            && (r.Some? <==> c.Some? && c.value.id < LastId)
            && (r.Some? ==> r.value == Stages[c.value.id + 1])
  {
    var c := CurrentStage(headcount, revenue);
    if c.None? || c.value.id >= LastId then None
    else
      FindById(c.value.id + 1);
      match Seqs.FindIndex((s: Stage) => s.id == c.value.id + 1, Stages)
      case Some(i) => Some(Stages[i])
      case None => None
  }

  // ---------------------------------------------------------------------
  // Sales targets
  // ---------------------------------------------------------------------

  /** The integer fields of `getSalesMetrics`; the ones derived with the 4.33 weeks per month are not among them. */
  datatype SalesMetrics = SalesMetrics(
    revenueGap: nat,
    salesNeeded: nat,
    salesPerMonth: nat,
    monthlyRevenueTarget: int,
    maxClientsPerYear: int,
    maxConcurrentProjects: int,
    timelineMonths: nat)

  /**
   * `getSalesMetrics` once `getNextStage` has answered: nothing without a
   * next stage, with a zero price, or once the revenue has reached the next
   * stage's minimum; otherwise the targets for the gap to that minimum.
   */
  function MetricsToward(next: Option<Stage>, revenue: int, servicePrice: nat, headcount: int, deliveryTimeWeeks: int): (r: Option<SalesMetrics>)
    ensures r.None? <==> next.None? || servicePrice == 0 || revenue >= next.value.revenueMin
    ensures r.Some? ==> next.value.revenueMin - revenue > 0
                        && r.value == Targets(next.value.revenueMin - revenue, servicePrice, headcount, deliveryTimeWeeks)
  {
    if next.None? || servicePrice == 0 then None
    else
      // `Math.max(0, gap) <= 0` holds exactly when `gap <= 0`
      var gap := next.value.revenueMin - revenue;
      if gap <= 0 then None
      else Some(Targets(gap, servicePrice, headcount, deliveryTimeWeeks))
  }

  /** `getSalesMetrics` on the page's own figures. */
  function GetSalesMetrics(headcount: int, revenue: int, servicePrice: nat, deliveryTimeWeeks: int): Option<SalesMetrics> {
    MetricsToward(NextStage(headcount, revenue), revenue, servicePrice, headcount, deliveryTimeWeeks)
  }

  /** The arithmetic of `getSalesMetrics` once the gap and the price are known to be positive. */
  function Targets(gap: nat, servicePrice: nat, headcount: int, deliveryTimeWeeks: int): (m: SalesMetrics)
    requires gap > 0 && servicePrice > 0
    ensures m.revenueGap == gap
  {
    var salesNeeded := CeilDiv(gap, servicePrice);
    var salesPerMonth := CeilDiv(salesNeeded, 12);
    SalesMetrics(gap, salesNeeded, salesPerMonth, salesPerMonth * servicePrice,
                 headcount * 52, deliveryTimeWeeks * headcount, 12)
  }

  /** The targets computed from a gap and a price meet the gap, and are the least that do. */
  lemma TargetsCoverGap(gap: nat, servicePrice: nat, headcount: int, deliveryTimeWeeks: int)
    requires gap > 0 && servicePrice > 0
    ensures var m := Targets(gap, servicePrice, headcount, deliveryTimeWeeks);
            && m.salesNeeded * servicePrice >= gap
            && (m.salesNeeded - 1) * servicePrice < gap
            && m.salesPerMonth * m.timelineMonths >= m.salesNeeded
            && (m.salesPerMonth - 1) * m.timelineMonths < m.salesNeeded
            && m.monthlyRevenueTarget * m.timelineMonths >= gap
            && m.maxClientsPerYear == 52 * headcount
  {
    var m := Targets(gap, servicePrice, headcount, deliveryTimeWeeks);
    CeilDivIsCeiling(gap, servicePrice);
    CeilDivIsCeiling(m.salesNeeded, 12);
    assert m.salesNeeded > 0;
    MonthlyTargetsCover(m.salesPerMonth, m.salesNeeded, servicePrice, gap);
  }

  /** Twelve months at the monthly sales count reach the sales needed, hence the revenue. */
  lemma MonthlyTargetsCover(salesPerMonth: nat, salesNeeded: nat, servicePrice: nat, gap: nat)
    requires salesPerMonth * 12 >= salesNeeded && salesNeeded * servicePrice >= gap
    ensures (salesPerMonth * servicePrice) * 12 >= gap
  {
    assert (salesPerMonth * servicePrice) * 12 == (salesPerMonth * 12) * servicePrice;
    assert (salesPerMonth * 12) * servicePrice >= salesNeeded * servicePrice;
  }

  /** With the page's fixed values (four people, no revenue, a 5000 price, four-week delivery) the next stage is a million away: 200 sales, 17 a month. */
  lemma StartingTargets()
    ensures GetSalesMetrics(4, 0, 5000, 4) == Some(SalesMetrics(1000000, 200, 17, 85000, 208, 16, 12))
  {
    StartingStage();
    assert NextStage(4, 0) == Some(Stages[4]);
  }

  // ---------------------------------------------------------------------
  // Sales action points
  // ---------------------------------------------------------------------

  /** How often a checklist item or action point is meant to be done. */
  datatype Frequency = Daily | Weekly | Once | Ongoing

  /** The frequency as the page writes it and its filter compares it. */
  function FrequencyName(f: Frequency): (r: string)
    ensures r in {"daily", "weekly", "once", "ongoing"}
  {
    match f
    case Daily => "daily"
    case Weekly => "weekly"
    case Once => "once"
    case Ongoing => "ongoing"
  }

  /** The eight business areas, in the page's order. */
  datatype Area = Product | Marketing | Sales | CustomerService | InformationTech | Recruiting | HumanResources | Finance

  function AreaName(a: Area): string {
    match a
    case Product => "PRODUCT"
    case Marketing => "MARKETING"
    case Sales => "SALES"
    case CustomerService => "CUSTOMER SERVICE"
    case InformationTech => "INFORMATION TECH (IT)"
    case Recruiting => "RECRUITING"
    case HumanResources => "HUMAN RESOURCES (HR)"
    case Finance => "FINANCE"
  }

  /** Different areas have different names. */
  lemma AreaNamesDiffer(a: Area, b: Area)
    ensures AreaName(a) == AreaName(b) <==> a == b
  {
  }

  /** The priorities the dashboard gives its tasks and action points. */
  datatype Priority = High | Medium

  /** The text templates of the action points, with the values they interpolate. */
  datatype PointText =
    | LeadsDaily(leads: nat)
    | LeadsWeekly(leads: nat)
    | CloseThisMonth(sales: nat, targetText: string)
    | CloseThisWeek(sales: nat, revenueText: string)
    | FollowUp(prospects: nat)
    | Hire(capacityText: string)
    | ShortenDelivery(weeks: nat)
    | Pipeline(prospects: nat)

  /** The template literal each point's text is. */
  function Render(t: PointText): string {
    match t
    case LeadsDaily(n) => "Generate " + NatToString(n) + " leads daily (10:1 lead-to-sale ratio target)"
    case LeadsWeekly(n) => "Generate " + NatToString(n) + " leads weekly (10:1 lead-to-sale ratio target)"
    case CloseThisMonth(n, target) => "Close " + NatToString(n) + " sales this month (" + target + " monthly target)"
    case CloseThisWeek(n, revenue) => "Close " + NatToString(n) + " sales this week (" + revenue + " revenue)"
    case FollowUp(n) => "Follow up with " + NatToString(n) + " prospects daily"
    case Hire(capacity) => "Plan to hire additional team members - you'll be at " + capacity + "% capacity"
    case ShortenDelivery(n) => "Optimize service delivery to reduce " + NatToString(n) + "-week timeline"
    case Pipeline(n) => "Maintain pipeline of " + NatToString(n) + " qualified prospects"
  }

  /** A suggested action: its text, how often to do it, the business area and the priority. */
  datatype ActionPoint = ActionPoint(text: PointText, frequency: Frequency, area: Area, priority: Priority)

  /**
   * What the page computes with floating point and is taken here as given:
   * the weekly sales count (the monthly count divided by 4.33, rounded up),
   * whether the capacity utilisation exceeds 80%, and the formatted
   * monthly target, weekly revenue and utilisation percentage.
   */
  datatype FloatParts = FloatParts(salesPerWeek: nat, overCapacity: bool,
                                   monthlyTargetText: string, weeklyRevenueText: string, capacityText: string)

  /**
   * `salesPerDay`: the weekly count spread over five business days,
   * rounded up. Dividing a whole number by 5 is exact enough in floating
   * point for the ceiling to be the integer one.
   */
  function SalesPerDay(f: FloatParts): (d: nat)
    ensures d * 5 >= f.salesPerWeek
    ensures d == 0 || (d - 1) * 5 < f.salesPerWeek
  {
    CeilDivIsCeiling(f.salesPerWeek, 5);
    CeilDiv(f.salesPerWeek, 5)
  }

  /** The lead-generation point: daily from two sales a day, weekly below. */
  function LeadPoint(f: FloatParts): ActionPoint {
    var salesPerDay := SalesPerDay(f);
    if salesPerDay >= 2 then ActionPoint(LeadsDaily(salesPerDay * 10), Daily, Marketing, High)
    else ActionPoint(LeadsWeekly(f.salesPerWeek * 10), Weekly, Marketing, High)
  }

  /** Leads are set daily exactly when more than five sales a week are needed. */
  lemma LeadsDailyFromSixAWeek(f: FloatParts)
    ensures LeadPoint(f).frequency == Daily <==> f.salesPerWeek > 5
  {
  }

  /** The action points `getSalesActionPoints` returns, in the order it pushes them. */
  function SalesActionPoints(metrics: Option<SalesMetrics>, f: FloatParts, deliveryTimeWeeks: int): seq<ActionPoint> {
    if metrics.None? then []
    else
      var m := metrics.value;
      var fixed := [LeadPoint(f)]
                   + [ActionPoint(CloseThisMonth(m.salesPerMonth, f.monthlyTargetText), Weekly, Sales, High)]
                   + [ActionPoint(CloseThisWeek(f.salesPerWeek, f.weeklyRevenueText), Weekly, Sales, Medium)]
                   + [ActionPoint(FollowUp(SalesPerDay(f) * 3), Daily, Sales, Medium)];
      var withHire := if f.overCapacity then fixed + [ActionPoint(Hire(f.capacityText), Once, Recruiting, High)] else fixed;
      var withDelivery := if deliveryTimeWeeks > 8 then withHire + [ActionPoint(ShortenDelivery(deliveryTimeWeeks), Once, Product, Medium)]
                          else withHire;
      withDelivery + [ActionPoint(Pipeline(m.salesNeeded * 2), Weekly, Sales, Medium)]
  }

  /** `getSalesActionPoints`: push the points one by one. */
  method GetSalesActionPoints(metrics: Option<SalesMetrics>, f: FloatParts, deliveryTimeWeeks: int)
    returns (actionPoints: seq<ActionPoint>)
    ensures actionPoints == SalesActionPoints(metrics, f, deliveryTimeWeeks)
  {
    if metrics.None? {
      return [];
    }
    var m := metrics.value;
    actionPoints := [LeadPoint(f)];
    actionPoints := actionPoints + [ActionPoint(CloseThisMonth(m.salesPerMonth, f.monthlyTargetText), Weekly, Sales, High)];
    actionPoints := actionPoints + [ActionPoint(CloseThisWeek(f.salesPerWeek, f.weeklyRevenueText), Weekly, Sales, Medium)];
    actionPoints := actionPoints + [ActionPoint(FollowUp(SalesPerDay(f) * 3), Daily, Sales, Medium)];
    if f.overCapacity {
      actionPoints := actionPoints + [ActionPoint(Hire(f.capacityText), Once, Recruiting, High)];
    }
    if deliveryTimeWeeks > 8 {
      actionPoints := actionPoints + [ActionPoint(ShortenDelivery(deliveryTimeWeeks), Once, Product, Medium)];
    }
    actionPoints := actionPoints + [ActionPoint(Pipeline(m.salesNeeded * 2), Weekly, Sales, Medium)];
  }

  /** Whether any point belongs to the area. */
  predicate HasArea(points: seq<ActionPoint>, area: Area) {
    exists k :: 0 <= k < |points| && points[k].area == area
  }

  /**
   * No metrics, no points. Otherwise five fixed points, one more for
   * recruiting exactly when capacity would exceed 80%, and one more for the
   * product exactly when delivery takes over eight weeks; the first is the
   * high-priority marketing lead target and the last the sales pipeline.
   */
  lemma SalesActionPointsShape(metrics: Option<SalesMetrics>, f: FloatParts, deliveryTimeWeeks: int)
    ensures var points := SalesActionPoints(metrics, f, deliveryTimeWeeks);
            && (metrics.None? <==> points == [])
            && (metrics.Some? ==>
                  && |points| == 5 + (if f.overCapacity then 1 else 0) + (if deliveryTimeWeeks > 8 then 1 else 0)
                  && points[0].area == Marketing && points[0].priority == High
                  && points[|points| - 1].text == Pipeline(metrics.value.salesNeeded * 2)
                  && (HasArea(points, Recruiting) <==> f.overCapacity)
                  && (HasArea(points, Product) <==> deliveryTimeWeeks > 8))
  {
    var points := SalesActionPoints(metrics, f, deliveryTimeWeeks);
    if metrics.Some? {
      if f.overCapacity {
        assert points[4].area == Recruiting;
      }
      if deliveryTimeWeeks > 8 {
        assert points[|points| - 2].area == Product;
      }
    }
  }

  /** On the page's starting values, when the capacity test fires, there are six points. */
  lemma StartingPointsCount(f: FloatParts)
    requires f.overCapacity
    ensures |SalesActionPoints(GetSalesMetrics(4, 0, 5000, 4), f, 4)| == 6
  {
    StartingTargets();
    SalesActionPointsShape(GetSalesMetrics(4, 0, 5000, 4), f, 4);
  }

  // ---------------------------------------------------------------------
  // Checklists and tasks
  // ---------------------------------------------------------------------

  /** A checklist entry: what to do and how often. */
  datatype ChecklistItem = ChecklistItem(text: string, frequency: Frequency)

  /** A business area with its checklist; the constraint, graduation and colour texts are display only. */
  datatype BusinessArea = BusinessArea(area: Area, checklist: seq<ChecklistItem>)

  const BusinessAreas: seq<BusinessArea> := [
    BusinessArea(Product, [
      ChecklistItem("Make product valuable before focusing on scalability", Once),
      ChecklistItem("Improve core product quality and user experience", Ongoing),
      ChecklistItem("Gather customer feedback and iterate based on needs", Weekly)]),
    BusinessArea(Marketing, [
      ChecklistItem("Choose your Core Four method (see selection above)", Once)]),
    BusinessArea(Sales, [
      ChecklistItem("Create sales script using CLOSER framework", Once),
      ChecklistItem("Script elements: Where are you now?", Once),
      ChecklistItem("Script elements: Where do you want to go?", Once),
      ChecklistItem("Script elements: What have you tried?", Once),
      ChecklistItem("Script elements: What did you like/not like?", Once),
      ChecklistItem("Script elements: I will solve the obstacles this way", Once),
      ChecklistItem("Practice and refine script based on results", Daily)]),
    BusinessArea(CustomerService, [
      ChecklistItem("Create script to deal with upset customers", Once),
      ChecklistItem("Create process to get testimonials from happy customers", Once),
      ChecklistItem("Train team on consistent customer service approach", Once),
      ChecklistItem("Document common issues and responses", Weekly)]),
    BusinessArea(InformationTech, [
      ChecklistItem("Set up a place for customers to submit contact info", Once),
      ChecklistItem("Implement a way to keep track of prospects", Once),
      ChecklistItem("Implement a way to keep track of customers", Once),
      ChecklistItem("Ensure data is organized and accessible", Weekly)]),
    BusinessArea(Recruiting, [
      ChecklistItem("Identify roles that need full-time commitment", Once),
      ChecklistItem("Create job descriptions for full-time positions", Once),
      ChecklistItem("Begin recruiting full-time workers", Weekly),
      ChecklistItem("Transition key freelancers to full-time if possible", Once)]),
    BusinessArea(HumanResources, [
      ChecklistItem("Create written termination policies", Once),
      ChecklistItem("Document termination process and procedures", Once),
      ChecklistItem("Ensure legal compliance for terminations", Once),
      ChecklistItem("Train managers on proper termination protocols", Once)]),
    BusinessArea(Finance, [
      ChecklistItem("Check your bank account daily", Daily),
      ChecklistItem("Track daily cash flow", Daily),
      ChecklistItem("Monitor key financial metrics", Weekly),
      ChecklistItem("Set up basic budgeting system", Once)])
  ]

  /** The Core Four methods the checklist knows. */
  const CoreFourMethods: set<string> := {"warm-outreach", "cold-outreach", "content", "paid-ads"}

  /** The Rule of 100 item every known method starts with. */
  const RuleOf100 := ChecklistItem("Contact 100 people today (Rule of 100)", Daily)

  /** The only item for a method the checklist does not know. */
  const ChooseMethod := ChecklistItem("Choose your Core Four method above to see specific action items", Once)

  /** The items specific to each known method, in the page's order. */
  function MethodItems(coreFour: string): seq<ChecklistItem> {
    match coreFour
    case "warm-outreach" => [
      ChecklistItem("Spend 100 minutes reaching out to warm contacts", Daily),
      ChecklistItem("Send follow-up messages to 5 past clients", Daily),
      ChecklistItem("Ask 3 satisfied customers for referrals", Weekly),
      ChecklistItem("Comment on 10 warm contacts' social media posts", Daily),
      ChecklistItem("Update your warm contact list with new connections", Weekly)]
    case "cold-outreach" => [
      ChecklistItem("Spend 100 minutes on cold outreach", Daily),
      ChecklistItem("Research and add 50 new prospects to your list", Weekly),
      ChecklistItem("Create 2 new outreach message templates", Weekly),
      ChecklistItem("Track and record response rates from this week", Weekly),
      ChecklistItem("Send 20 cold messages to new prospects", Daily)]
    case "content" => [
      ChecklistItem("Create and post 1 piece of content", Daily),
      ChecklistItem("Leave 100+ valuable comments on target audience posts", Daily),
      ChecklistItem("Write the most helpful comment on 5 posts", Daily),
      ChecklistItem("Plan next week's content calendar (7 posts)", Weekly),
      ChecklistItem("Review last week's content performance and note insights", Weekly),
      ChecklistItem("Engage with everyone who commented on your content", Daily)]
    case "paid-ads" => [
      ChecklistItem("Spend 100 minutes managing ad campaigns", Daily),
      ChecklistItem("Research 5 new hooks or angles for ads", Daily),
      ChecklistItem("Create 2 new ad creatives (images/videos)", Daily),
      ChecklistItem("Check ad performance and adjust budgets", Daily),
      ChecklistItem("Launch A/B test with 2 ad variations", Weekly),
      ChecklistItem("Calculate ROI and pause underperforming ads", Weekly)]
    case _ => []
  }

  /** `getCoreFourChecklist`: the Rule of 100 followed by the method's own items, or a prompt to choose a method. */
  function CoreFourChecklist(coreFour: string): (r: seq<ChecklistItem>)
    ensures coreFour in CoreFourMethods ==> |r| >= 1 && r[0] == RuleOf100
    ensures coreFour !in CoreFourMethods ==> r == [ChooseMethod]
  {
    if coreFour in CoreFourMethods then [RuleOf100] + MethodItems(coreFour) else [ChooseMethod]
  }

  /** The company-info page offers "creating-content", which this checklist does not know: it only prompts for a choice. */
  lemma CreatingContentIsUnknown()
    ensures CoreFourChecklist("creating-content") == [ChooseMethod]
  {
  }

  /** A task on the dashboard's list; `completed` comes from the checklist map. */
  datatype Task = Task(id: string, text: string, frequency: Frequency, area: Area, priority: Priority, completed: bool)

  /** The items an area contributes: the Core Four checklist for marketing, its own checklist otherwise. */
  function ItemsOf(b: BusinessArea, coreFour: string): seq<ChecklistItem> {
    if b.area == Marketing then CoreFourChecklist(coreFour) else b.checklist
  }

  /** The checklist key of an area item: by method and text for marketing, by position otherwise. */
  function ItemKey(area: Area, coreFour: string, index: nat, text: string): string {
    if area == Marketing then AreaName(area) + "-" + coreFour + "-" + Prefix(text, 20)
    else AreaName(area) + "-" + NatToString(index)
  }

  /** The tasks of one area, in checklist order, with medium priority. */
  function AreaTasks(b: BusinessArea, coreFour: string): (r: seq<Task>)
    ensures |r| == |ItemsOf(b, coreFour)|
  {
    var items := ItemsOf(b, coreFour);
    seq(|items|, i requires 0 <= i < |items| =>
      Task(ItemKey(b.area, coreFour, i, items[i].text), items[i].text, items[i].frequency, b.area, Medium, false))
  }

  /** `businessAreas.flatMap(...)`: the areas' tasks one area after the other. */
  function RegularTasks(areas: seq<BusinessArea>, coreFour: string): seq<Task> {
    if |areas| == 0 then [] else AreaTasks(areas[0], coreFour) + RegularTasks(areas[1..], coreFour)
  }

  /** The checklist key of the `index`-th action point. */
  function SalesKey(index: nat, text: string): string {
    "SALES-ACTION-" + NatToString(index) + "-" + Prefix(text, 20)
  }

  /** The action points as tasks, keyed by position and text. */
  function SalesTasks(points: seq<ActionPoint>): (r: seq<Task>)
    ensures |r| == |points|
  {
    seq(|points|, i requires 0 <= i < |points| =>
      Task(SalesKey(i, Render(points[i].text)), Render(points[i].text), points[i].frequency, points[i].area,
           points[i].priority, false))
  }

  /** The task list before completion is looked up: regular tasks, then the action points. */
  function TaskList(areas: seq<BusinessArea>, coreFour: string, points: seq<ActionPoint>): seq<Task> {
    RegularTasks(areas, coreFour) + SalesTasks(points)
  }

  /** `checkedItems[key] || false`. */
  predicate Checked(checkedItems: map<string, bool>, key: string) {
    key in checkedItems && checkedItems[key]
  }

  /** Each task marked as its key is in the checklist map. */
  function WithCompletion(tasks: seq<Task>, checkedItems: map<string, bool>): (r: seq<Task>)
    ensures |r| == |tasks|
  {
    seq(|tasks|, i requires 0 <= i < |tasks| => tasks[i].(completed := Checked(checkedItems, tasks[i].id)))
  }

  /** `getAllTasks`. */
  function AllTasks(checkedItems: map<string, bool>, coreFour: string, points: seq<ActionPoint>): seq<Task> {
    WithCompletion(TaskList(BusinessAreas, coreFour, points), checkedItems)
  }

  /** The list holds every area item, then one task per action point, carrying that point's area, frequency and priority. */
  lemma TaskListShape(areas: seq<BusinessArea>, coreFour: string, points: seq<ActionPoint>)
    ensures var tasks := TaskList(areas, coreFour, points);
            var regular := |RegularTasks(areas, coreFour)|;
            && |tasks| == regular + |points|
            && forall i :: 0 <= i < |points| ==>
                 && tasks[regular + i].id == SalesKey(i, Render(points[i].text))
                 && tasks[regular + i].area == points[i].area
                 && tasks[regular + i].frequency == points[i].frequency
                 && tasks[regular + i].priority == points[i].priority
  {
    var regular := RegularTasks(areas, coreFour);
    var sales := SalesTasks(points);
    forall i | 0 <= i < |points|
      ensures TaskList(areas, coreFour, points)[|regular| + i] == sales[i]
    {
    }
  }

  /** Every regular task has medium priority and comes from an item of its area. */
  lemma {:induction false} RegularTasksMedium(areas: seq<BusinessArea>, coreFour: string)
    ensures forall i :: 0 <= i < |RegularTasks(areas, coreFour)| ==> RegularTasks(areas, coreFour)[i].priority == Medium
    decreases |areas|
  {
    if |areas| > 0 {
      RegularTasksMedium(areas[1..], coreFour);
      var head: seq<Task> := AreaTasks(areas[0], coreFour);
      var rest: seq<Task> := RegularTasks(areas[1..], coreFour);
      var all: seq<Task> := head + rest;
      assert RegularTasks(areas, coreFour) == all;
      forall i: nat | i < |all|
        ensures all[i].priority == Medium
      {
        if i >= |head| {
          assert all[i] == rest[i - |head|];
        }
      }
    }
  }

  /** `!prev[itemKey]` stored under the key. */
  function Toggle(checkedItems: map<string, bool>, key: string): map<string, bool> {
    checkedItems[key := !Checked(checkedItems, key)]
  }

  /** Toggling flips the key (an absent key becomes true) and leaves every other key as it was; twice restores it. */
  lemma ToggleFlipsOnlyKey(checkedItems: map<string, bool>, key: string)
    ensures Checked(Toggle(checkedItems, key), key) == !Checked(checkedItems, key)
    ensures forall k :: k != key ==> Checked(Toggle(checkedItems, key), k) == Checked(checkedItems, k)
    ensures forall k :: Checked(Toggle(Toggle(checkedItems, key), key), k) == Checked(checkedItems, k)
  {
  }

  /** After a toggle exactly the tasks keyed by it change, and only in `completed`. */
  lemma ToggleChangesOnlyItsTasks(tasks: seq<Task>, checkedItems: map<string, bool>, key: string)
    ensures var before, after := WithCompletion(tasks, checkedItems), WithCompletion(tasks, Toggle(checkedItems, key));
            forall i :: 0 <= i < |tasks| ==>
              after[i] == before[i].(completed := if tasks[i].id == key then !before[i].completed else before[i].completed)
  {
  }

  /** The frequency select: "all" lets every task through. */
  predicate PassesFrequency(frequencyFilter: string, t: Task) {
    frequencyFilter == "all" || FrequencyName(t.frequency) == frequencyFilter
  }

  /** The area select: "all" lets every task through. */
  predicate PassesArea(areaFilter: string, t: Task) {
    areaFilter == "all" || AreaName(t.area) == areaFilter
  }

  /** A task matches the frequency. */
  function ByFrequency(frequencyFilter: string): Task -> bool {
    (t: Task) => FrequencyName(t.frequency) == frequencyFilter
  }

  /** A task matches the area. */
  function ByArea(areaFilter: string): Task -> bool {
    (t: Task) => AreaName(t.area) == areaFilter
  }

  /** Both selects together. */
  function TaskFilter(frequencyFilter: string, areaFilter: string): Task -> bool {
    (t: Task) => PassesFrequency(frequencyFilter, t) && PassesArea(areaFilter, t)
  }

  /** The page's own figures, which the dashboard holds fixed. */
  datatype Settings = Settings(coreFour: string, headcount: int, revenue: int, servicePrice: nat, deliveryTimeWeeks: int)

  /** The checklist, filter and figure state of the dashboard page. */
  class DashboardPage {
    var checkedItems: map<string, bool>
    var frequencyFilter: string
    var areaFilter: string
    const settings: Settings
    const floats: FloatParts

    /** The initial state: nothing checked, no filter. */
    constructor(settings: Settings, floats: FloatParts)
      ensures this.settings == settings && this.floats == floats
      ensures checkedItems == map[] && frequencyFilter == "all" && areaFilter == "all"
    {
      this.settings := settings;
      this.floats := floats;
      checkedItems := map[];
      frequencyFilter := "all";
      areaFilter := "all";
    }

    /** `getSalesActionPoints` on the page's figures. */
    function SalesPoints(): seq<ActionPoint> {
      SalesActionPoints(GetSalesMetrics(settings.headcount, settings.revenue, settings.servicePrice, settings.deliveryTimeWeeks),
                        floats, settings.deliveryTimeWeeks)
    }

    /** `getAllTasks` on the page's state. */
    function Tasks(): seq<Task>
      reads this
    {
      AllTasks(checkedItems, settings.coreFour, SalesPoints())
    }

    /** `toggleChecklistItem`. */
    method ToggleChecklistItem(key: string)
      modifies this
      ensures checkedItems == Toggle(old(checkedItems), key)
      ensures frequencyFilter == old(frequencyFilter) && areaFilter == old(areaFilter)
    {
      checkedItems := Toggle(checkedItems, key);
    }

    /** The frequency select. */
    method SetFrequencyFilter(value: string)
      modifies this
      ensures frequencyFilter == value
      ensures checkedItems == old(checkedItems) && areaFilter == old(areaFilter)
    {
      frequencyFilter := value;
    }

    /** The area select. */
    method SetAreaFilter(value: string)
      modifies this
      ensures areaFilter == value
      ensures checkedItems == old(checkedItems) && frequencyFilter == old(frequencyFilter)
    {
      areaFilter := value;
    }

    /**
     * `getFilteredTasks`: the frequency filter, then the area filter, each
     * skipped when it is "all", amount to one filter by both conditions.
     */
    method GetFilteredTasks() returns (tasks: seq<Task>)
      ensures tasks == Seqs.Filter(TaskFilter(frequencyFilter, areaFilter), Tasks())
    {
      var all := Tasks();
      tasks := all;
      if frequencyFilter != "all" {
        tasks := Seqs.Filter(ByFrequency(frequencyFilter), tasks);
      }
      if areaFilter != "all" {
        tasks := Seqs.Filter(ByArea(areaFilter), tasks);
      }
      FilteredTasksAre(all, frequencyFilter, areaFilter);
    }
  }

  /** The frequency filter, then the area filter, each skipped on "all". */
  function FilterInTurn(all: seq<Task>, frequencyFilter: string, areaFilter: string): seq<Task> {
    var first := if frequencyFilter != "all" then Seqs.Filter(ByFrequency(frequencyFilter), all) else all;
    if areaFilter != "all" then Seqs.Filter(ByArea(areaFilter), first) else first
  }

  /** The two filters in turn select exactly what the combined filter selects. */
  lemma FilteredTasksAre(all: seq<Task>, frequencyFilter: string, areaFilter: string)
    ensures FilterInTurn(all, frequencyFilter, areaFilter) == Seqs.Filter(TaskFilter(frequencyFilter, areaFilter), all)
  {
    var byFrequency := ByFrequency(frequencyFilter);
    var byArea := ByArea(areaFilter);
    var both := TaskFilter(frequencyFilter, areaFilter);
    if frequencyFilter != "all" && areaFilter != "all" {
      Seqs.FilterFilter(byFrequency, byArea, both, all);
    } else if frequencyFilter != "all" {
      Seqs.FilterSame(byFrequency, both, all);
    } else if areaFilter != "all" {
      Seqs.FilterSame(byArea, both, all);
    } else {
      Seqs.FilterAll(both, all);
    }
  }

  /** The filtered tasks keep the list's order, and hold exactly the tasks that pass both filters. */
  lemma FilteredTasksSelect(all: seq<Task>, frequencyFilter: string, areaFilter: string, t: Task)
    ensures Seqs.SubsequenceOf(Seqs.Filter(TaskFilter(frequencyFilter, areaFilter), all), all)
    ensures t in Seqs.Filter(TaskFilter(frequencyFilter, areaFilter), all) <==>
              t in all && PassesFrequency(frequencyFilter, t) && PassesArea(areaFilter, t)
  {
    Seqs.FilterIsSubsequence(TaskFilter(frequencyFilter, areaFilter), all);
    Seqs.FilterMembers(TaskFilter(frequencyFilter, areaFilter), all, t);
  }
}
