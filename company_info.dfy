/**
 * The company-info page's stage rule: the first stage whose headcount
 * range holds the headcount and whose revenue range, open at the top,
 * holds the revenue; the first stage when none does.
 */
module CompanyInfo {
  import opened Wrappers
  import opened GrowthStages
  import Seqs

  /** Inclusive headcount range and half-open revenue range `[revenue_min, revenue_max)`; a missing maximum is unbounded. */
  predicate Fits(s: Stage, headcount: int, revenue: int) {
    && HoldsHeadcount(s, headcount)
    && s.revenueMin <= revenue
    && (s.revenueMax.None? || revenue < s.revenueMax.value)
  }

  /** The test `stages.find` applies to each stage. */
  function FitTest(headcount: int, revenue: int): Stage -> bool {
    (s: Stage) => Fits(s, headcount, revenue)
  }

  /** `getCurrentStage`: `stages.find(...) || stages[0]`. */
  function CurrentStage(headcount: int, revenue: int): (r: Stage)
    ensures r.id < |Stages| && Stages[r.id] == r
  {
    TableShape();
    match Seqs.FindIndex(FitTest(headcount, revenue), Stages)
    case Some(i) => Stages[i]
    case None => Stages[0]
  }

  /** What `find` reports on any table: the first fitting row, or that none fits. */
  lemma FindFirstFit(table: seq<Stage>, headcount: int, revenue: int)
    ensures var found := Seqs.FindIndex(FitTest(headcount, revenue), table);
            && (found.Some? ==> found.value < |table| && Fits(table[found.value], headcount, revenue))
            && (found.Some? ==> forall j :: 0 <= j < found.value ==> !Fits(table[j], headcount, revenue))
            && (found.None? ==> forall j :: 0 <= j < |table| ==> !Fits(table[j], headcount, revenue))
  {
    var test := FitTest(headcount, revenue);
    var found := Seqs.FindIndex(test, table);
    if found.Some? {
      assert test(table[found.value]);
      forall j | 0 <= j < found.value
        ensures !Fits(table[j], headcount, revenue)
      {
        assert !test(table[j]);
      }
    } else {
      forall j | 0 <= j < |table|
        ensures !Fits(table[j], headcount, revenue)
      {
        assert !test(table[j]);
      }
    }
  }

  /**
   * The stage chosen is the first fitting one; when no stage fits, it is
   * the first stage, so the function is total.
   */
  lemma CurrentStageIsFirstFit(headcount: int, revenue: int)
    ensures var r := CurrentStage(headcount, revenue);
            && (Fits(r, headcount, revenue) ==> forall j :: 0 <= j < r.id ==> !Fits(Stages[j], headcount, revenue))
            && (!Fits(r, headcount, revenue) ==> r == Stages[0] && forall j :: 0 <= j < |Stages| ==> !Fits(Stages[j], headcount, revenue))
  {
    FindFirstFit(Stages, headcount, revenue);
    TableShape();
  }

  /** When no stage fits, the first stage is shown. */
  lemma NoFitFallsBack(headcount: int, revenue: int)
    requires forall j :: 0 <= j < |Stages| ==> !Fits(Stages[j], headcount, revenue)
    ensures CurrentStage(headcount, revenue) == Stages[0]
  {
    CurrentStageIsFirstFit(headcount, revenue);
  }

  /**
   * A revenue equal to a stage's upper bound never selects that stage as a
   * fit; only the fallback can still return the first stage.
   */
  lemma UpperBoundIsExclusive(headcount: int, revenue: int, i: nat)
    requires i < |Stages| && Stages[i].revenueMax == Some(revenue)
    ensures CurrentStage(headcount, revenue) == Stages[i] ==>
              i == 0 && forall j :: 0 <= j < |Stages| ==> !Fits(Stages[j], headcount, revenue)
  {
    CurrentStageIsFirstFit(headcount, revenue);
    if CurrentStage(headcount, revenue) == Stages[i] {
      assert !Fits(Stages[i], headcount, revenue);
      TableShape();
      assert Stages[i].id == i && Stages[0].id == 0;
    }
  }

  /** No stage takes a revenue of 50 million up to (not including) 100 million: the last bounded stage ends below it and the unbounded one starts above it. */
  lemma RevenueGap(headcount: int, revenue: int, j: nat)
    requires 50000000 <= revenue < 100000000 && j < |Stages|
    ensures !Fits(Stages[j], headcount, revenue)
  {
    TableShape();
    if j < 8 {
      assert Stages[j].revenueMax.value <= Stages[j + 1].revenueMin;
    }
  }

  /** A revenue of 50 million up to (not including) 100 million fits no stage, so the page shows the first stage. */
  lemma RevenueGapFallsBack(headcount: int, revenue: int)
    requires 50000000 <= revenue < 100000000
    ensures CurrentStage(headcount, revenue) == Stages[0]
  {
    forall j | 0 <= j < |Stages|
      ensures !Fits(Stages[j], headcount, revenue)
    {
      RevenueGap(headcount, revenue, j);
    }
    NoFitFallsBack(headcount, revenue);
  }

  /** The page's starting values, four people and no revenue, fit no stage and also show the first stage. */
  lemma StartingValuesFallBack()
    ensures CurrentStage(4, 0).name == "Improvise"
    ensures !Fits(CurrentStage(4, 0), 4, 0)
  {
    TableShape();
    forall j | 0 <= j < |Stages|
      ensures !Fits(Stages[j], 4, 0)
    {
      if j > 0 {
        assert Stages[0].revenueMin < Stages[j].revenueMin;
      }
    }
    NoFitFallsBack(4, 0);
  }

  /** `getNextStage`: the stage whose id is one more, or `null` after the last. */
  function NextStage(current: Stage): (r: Option<Stage>)
    ensures r.Some? <==> current.id < LastId
    ensures r.Some? ==> r.value == Stages[current.id + 1] && r.value.id == current.id + 1
  {
    FindById(current.id + 1);
    match Seqs.FindIndex((s: Stage) => s.id == current.id + 1, Stages)
    case Some(i) => Some(Stages[i])
    case None => None
  }

  /** Capitalize is the last row and no other row has that name. */
  lemma CapitalizeIsLast(k: nat)
    requires k < |Stages|
    ensures Stages[k].name == "Capitalize" <==> k == LastId
  {
  }

  /** The next stage of any stage the page can show is its successor row, and Capitalize has none. */
  lemma NextStageOfCurrent(headcount: int, revenue: int)
    ensures var c := CurrentStage(headcount, revenue);
            (c.name == "Capitalize" <==> NextStage(c).None?)
  {
    CapitalizeIsLast(CurrentStage(headcount, revenue).id);
  }
}
