/**
 * The ten growth stages both the dashboard and the company-info page
 * classify a business into. The two pages hold identical copies of this
 * table; they differ only in how they pick a row from it.
 */
module GrowthStages {
  import opened Wrappers
  import Seqs

  /** One stage: an inclusive headcount range and a revenue range whose upper end may be missing (`null`). */
  datatype Stage = Stage(id: nat, name: string, headcountMin: int, headcountMax: int,
                         revenueMin: int, revenueMax: Option<int>)

  const Stages: seq<Stage> := [
    Stage(0, "Improvise", 0, 1, 0, Some(50000)),
    Stage(1, "Monetize", 0, 1, 50000, Some(100000)),
    Stage(2, "Advertise", 0, 1, 100000, Some(250000)),
    Stage(3, "Stabilize", 1, 4, 250000, Some(1000000)),
    Stage(4, "Prioritize", 5, 9, 1000000, Some(2000000)),
    Stage(5, "Productize", 10, 19, 2000000, Some(5000000)),
    Stage(6, "Optimize", 20, 49, 5000000, Some(12000000)),
    Stage(7, "Categorize", 50, 99, 12000000, Some(25000000)),
    Stage(8, "Specialize", 100, 249, 25000000, Some(50000000)),
    Stage(9, "Capitalize", 250, 500, 100000000, None)
  ]

  /** The last stage, the only one without an upper revenue bound. */
  const LastId: nat := 9

  /** The headcount lies in the stage's inclusive range. */
  predicate HoldsHeadcount(s: Stage, headcount: int) {
    s.headcountMin <= headcount <= s.headcountMax
  }

  /**
   * The table's shape: ids are positions, revenue minima strictly rise,
   * every stage but the last has an upper revenue bound above its minimum,
   * and the last has none.
   */
  lemma TableShape()
    ensures |Stages| == LastId + 1
    ensures forall i :: 0 <= i < |Stages| ==> Stages[i].id == i
    ensures forall i, j :: 0 <= i < j < |Stages| ==> Stages[i].revenueMin < Stages[j].revenueMin
    ensures forall i :: 0 <= i < LastId ==> Stages[i].revenueMax.Some? && Stages[i].revenueMin < Stages[i].revenueMax.value
    ensures Stages[LastId].revenueMax.None?
  {
  }

  /**
   * Headcount ranges cover 0 to 500 with no hole: every headcount in that
   * range has a stage and no other headcount does.
   */
  lemma HeadcountsCover(headcount: int)
    ensures (exists i :: 0 <= i < |Stages| && HoldsHeadcount(Stages[i], headcount)) <==> 0 <= headcount <= 500
  {
    if 0 <= headcount <= 500 {
      var i := if headcount <= 1 then 0 else if headcount <= 4 then 3 else if headcount <= 9 then 4
               else if headcount <= 19 then 5 else if headcount <= 49 then 6 else if headcount <= 99 then 7
               else if headcount <= 249 then 8 else 9;
      assert HoldsHeadcount(Stages[i], headcount);
    }
  }

  /** The headcount ranges: the first three stages take zero or one person, Stabilize one to four, the others five and more. */
  lemma HeadcountRanges()
    ensures forall i :: 0 <= i < 3 ==> Stages[i].headcountMin == 0 && Stages[i].headcountMax == 1
    ensures Stages[3].headcountMin == 1 && Stages[3].headcountMax == 4
    ensures forall i :: 4 <= i < |Stages| ==> 5 <= Stages[i].headcountMin
    ensures forall i :: 0 <= i < |Stages| ==> Stages[i].headcountMax <= 500
  {
  }

  /** From 2 people up, exactly one stage's headcount range holds the headcount. */
  lemma OneStagePerHeadcount(headcount: int, i: nat, j: nat)
    requires 2 <= headcount
    requires i < |Stages| && j < |Stages|
    requires HoldsHeadcount(Stages[i], headcount) && HoldsHeadcount(Stages[j], headcount)
    ensures i == j
  {
  }

  /** Looking a stage up by id finds the row at that position, and nothing past the last. */
  lemma FindById(n: nat)
    ensures Seqs.FindIndex((s: Stage) => s.id == n, Stages) == if n < |Stages| then Some(n) else None
  {
    TableShape();
    if n < |Stages| {
      assert Stages[n].id == n;
    }
  }
}
