/** The constant plan table of src/lib/plans.ts and its lookup by id. */
module Plans {
  import opened Wrappers
  import opened StoryTypes

  // Description and feature texts are display copy and are not modelled.
  const Creator: Plan := Plan("plan_creator", "Creator", 199, 5)
  const Pro: Plan := Plan("plan_pro", "Pro", 599, 15)

  const PlanTable: seq<Plan> := [Creator, Pro]

  /** `table.find(p => p.id === id)`: the first plan with that id, if there is one. */
  function Find(table: seq<Plan>, id: string): (r: Option<Plan>)
    ensures r.None? <==> forall i :: 0 <= i < |table| ==> table[i].id != id
    ensures r.Some? ==> r.value in table && r.value.id == id
    ensures r.Some? ==> exists k :: 0 <= k < |table| && table[k] == r.value
                                    && forall j :: 0 <= j < k ==> table[j].id != id
  {
    if table == [] then None
    else if table[0].id == id then Some(table[0])
    else
      assert forall i :: 1 <= i < |table| ==> table[i] == table[1..][i - 1];
      Find(table[1..], id)
  }

  function FindPlan(id: string): (r: Option<Plan>)
  {
    Find(PlanTable, id)
  }

  /** The values the payload schemas admit: `z.enum(['plan_creator', 'plan_pro'])`. */
  predicate IsPlanIdEnum(id: string)
  {
    id == "plan_creator" || id == "plan_pro"
  }

  /** Two plans, with distinct ids and distinct names. */
  lemma PlanTableShape()
    ensures |PlanTable| == 2
    ensures PlanTable[0].id != PlanTable[1].id && PlanTable[0].name != PlanTable[1].name
  {
  }

  lemma CreatorTerms()
    ensures FindPlan("plan_creator") == Some(Plan("plan_creator", "Creator", 199, 5))
  {
    assert PlanTable[0].id == "plan_creator";
  }

  lemma ProTerms()
    ensures FindPlan("plan_pro") == Some(Plan("plan_pro", "Pro", 599, 15))
  {
    assert PlanTable[0].id != "plan_pro";
    assert PlanTable[1].id == "plan_pro";
  }

  /**
   * Every id the payload enums admit is in the table, so the "plan not found"
   * branches of both payment routes cannot be taken with this table.
   */
  lemma EnumIdsAreFound(id: string)
    requires IsPlanIdEnum(id)
    ensures FindPlan(id).Some? && FindPlan(id).value.id == id
    ensures FindPlan(id).value.monthlyStoryLimit > 0 && FindPlan(id).value.price > 0
    ensures FindPlan(id).value.name != ""
  {
    if id == "plan_creator" { CreatorTerms(); } else { ProTerms(); }
  }

  /** Conversely, only the two enum ids are found. */
  lemma FoundIdsAreEnum(id: string)
    requires FindPlan(id).Some?
    ensures IsPlanIdEnum(id)
  {
  }
}
