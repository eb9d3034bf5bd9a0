/** The OverallPlan document: the master plan a new month copies its categories from. */
module OverallPlanModel {

  datatype PlanCategory = PlanCategory(name: string, defaultBudget: real)

  datatype OverallPlan = OverallPlan(name: string, userId: string, categories: seq<PlanCategory>)

  /** Key functions for the keyed-list operations. */
  function UserIdOf(p: OverallPlan): string { p.userId }
  function PlanCategoryNameOf(c: PlanCategory): string { c.name }

  /** OverallPlanCategorySchema: `name` required (`defaultBudget` is a number). */
  predicate ValidPlanCategory(c: PlanCategory) {
    c.name != ""
  }

  /** OverallPlanSchema: `name` and `userId` required, and every category valid. */
  predicate ValidPlan(p: OverallPlan) {
    p.name != "" && p.userId != "" && forall i :: 0 <= i < |p.categories| ==> ValidPlanCategory(p.categories[i])
  }

  /** Overwriting one category of a plan keeps it valid exactly when the new category is valid. */
  lemma ValidPlanUpdateCategory(p: OverallPlan, k: nat, c: PlanCategory)
    requires ValidPlan(p) && k < |p.categories|
    ensures ValidPlan(p.(categories := p.categories[k := c])) <==> ValidPlanCategory(c)
  {
    assert p.categories[k := c][k] == c;
  }
}
