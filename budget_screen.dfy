/**
 * The Budget screen: the per-category progress rows of the month, the
 * requests its plan and month forms send, and its form and month-picker
 * state. Requests are returned as values; sending them is the store's
 * business (OverallPlanRoutes, MonthlyBudgetRoutes).
 */
module BudgetScreen {
  import opened Common
  import opened KeyedLists
  import opened MonthlyBudgetModel
  import opened OverallPlanModel
  import opened OverallPlanRoutes
  import opened Summary

  // ---------------------------------------------------------------------
  // A month category's row.

  /** `spent` of renderMonthItem: the amounts of the month's items under the category's name, 0 with no month. */
  function Spent(mb: Option<MonthlyBudget>, name: string): (r: real)
    ensures mb.None? ==> r == 0.0
  {
    if mb.None? then 0.0 else CategorySpent(mb.value.items, name)
  }

  /** `budget > 0 ? Math.min(spent / budget, 1) : 0`: the filled share of the bar, as a fraction. */
  function Percent(spent: real, budget: real): (r: real)
    ensures r <= 1.0
    ensures budget <= 0.0 ==> r == 0.0
    ensures budget > 0.0 ==> (r == 1.0 <==> spent >= budget)
    ensures budget > 0.0 && spent < budget ==> r * budget == spent
    ensures spent >= 0.0 ==> r >= 0.0
  {
    if budget > 0.0 then
      var q := spent / budget;
      AboveIffScaledAbove(-q, -1.0, budget, -spent);
      Min(q, 1.0)
    else 0.0
  }

  /** `spent > item.budget`: the row shows the amount in red and 'Overspent!'. */
  predicate Overspent(spent: real, budget: real) {
    spent > budget
  }

  /** `Math.min(100, percent * 100)`: the bar's width in percent. */
  function BarWidth(percent: real): (w: real)
    ensures w <= 100.0
    ensures percent <= 1.0 ==> w == percent * 100.0
  {
    Min(100.0, percent * 100.0)
  }

  /** With a positive budget an overspent category's bar is full, and a bar is full only when the budget is used up. */
  lemma FullBarIffUsedUp(spent: real, budget: real)
    requires budget > 0.0
    ensures Overspent(spent, budget) ==> BarWidth(Percent(spent, budget)) == 100.0
    ensures BarWidth(Percent(spent, budget)) == 100.0 <==> spent >= budget
  {
  }

  /** A category with no budget but some spending is flagged as overspent while its bar stays empty. */
  lemma ZeroBudgetOverspentEmptyBar(spent: real)
    requires spent > 0.0
    ensures Overspent(spent, 0.0) && BarWidth(Percent(spent, 0.0)) == 0.0
  {
  }

  // ---------------------------------------------------------------------
  // Form submissions.

  /** What a plan-mode action sends: `saveOverallPlan(...)` or `updateOverallPlanCategory(catName, data)`. */
  datatype PlanRequest =
    | SavePlanRequest(plan: OverallPlan)
    | UpdateCategoryRequest(catName: string, category: PlanCategory)

  /** handleDeletePlan: the plan saved again without categories of that name; nothing when no plan is loaded. */
  function PlanDeletion(plan: Option<OverallPlan>, name: string): (r: Option<PlanRequest>)
    ensures r.Some? <==> plan.Some?
    ensures r.Some? ==> (r.value.SavePlanRequest?
      && r.value.plan.name == plan.value.name && r.value.plan.userId == plan.value.userId
      && !HasKey(r.value.plan.categories, PlanCategoryNameOf, name)
      && (forall i :: 0 <= i < |plan.value.categories| && plan.value.categories[i].name != name
            ==> plan.value.categories[i] in r.value.plan.categories))
  {
    if plan.None? then None
    else Some(SavePlanRequest(plan.value.(categories := RemoveKey(plan.value.categories, PlanCategoryNameOf, name))))
  }

  /**
   * handleSubmitPlan, with the form's `{ name, budget }` read as
   * `{ name, defaultBudget }`: with no plan a new 'My Plan' for 'default'
   * holding just this category; when editing, an update of the edited
   * category; otherwise the plan saved with the category appended.
   */
  function PlanSubmission(plan: Option<OverallPlan>, edit: Option<MonthlyCategory>, data: MonthlyCategory): (r: PlanRequest)
    ensures plan.None? ==> r == SavePlanRequest(OverallPlan("My Plan", "default", [PlanCategory(data.name, data.budget)]))
    ensures plan.Some? && edit.Some? ==> r == UpdateCategoryRequest(edit.value.name, PlanCategory(data.name, data.budget))
    ensures plan.Some? && edit.None? ==> (r.SavePlanRequest?
      && r.plan.name == plan.value.name && r.plan.userId == plan.value.userId
      && r.plan.categories == plan.value.categories + [PlanCategory(data.name, data.budget)])
  {
    var planData := PlanCategory(data.name, data.budget);
    if plan.None? then SavePlanRequest(OverallPlan("My Plan", "default", [planData]))
    else if edit.Some? then UpdateCategoryRequest(edit.value.name, planData)
    else SavePlanRequest(plan.value.(categories := plan.value.categories + [planData]))
  }

  /**
   * Adding a category to the loaded plan and saving it makes the stored
   * plan of that user the old one with the category at the end.
   */
  lemma AddedPlanCategoryIsStored(plans: seq<OverallPlan>, plan: OverallPlan, data: MonthlyCategory)
    ensures var req := PlanSubmission(Some(plan), None, data);
      FindPlan(Upsert(plans, req.plan), plan.userId)
        == Some(plan.(categories := plan.categories + [PlanCategory(data.name, data.budget)]))
  {
    var req := PlanSubmission(Some(plan), None, data);
    UpsertThenFind(plans, req.plan);
  }

  /**
   * handleDeleteMonth: with a month loaded it asks through an Alert, and
   * only 'Delete' sends the month's categories without that name; 'Cancel',
   * or no month, sends nothing.
   */
  function MonthDeletion(mb: Option<MonthlyBudget>, name: string, confirmed: bool): (r: Option<seq<MonthlyCategory>>)
    ensures r.Some? <==> mb.Some? && confirmed
    ensures r.Some? ==> !HasKey(r.value, CategoryNameOf, name) && |r.value| <= |mb.value.categories|
    ensures r.Some? ==> forall i :: 0 <= i < |mb.value.categories| && mb.value.categories[i].name != name
                          ==> mb.value.categories[i] in r.value
  {
    if mb.None? || !confirmed then None else Some(RemoveKey(mb.value.categories, CategoryNameOf, name))
  }

  /** With distinct names, deleting a month category lowers the month's budget by exactly that category's budget. */
  lemma MonthDeletionTotal(mb: MonthlyBudget, k: nat)
    requires DistinctKeys(mb.categories, CategoryNameOf) && k < |mb.categories|
    ensures SumBudgets(MonthDeletion(Some(mb), mb.categories[k].name, true).value) == SumBudgets(mb.categories) - mb.categories[k].budget
  {
    RemoveKeyUnique(mb.categories, CategoryNameOf, mb.categories[k].name, k);
    SumBudgetsRemoveAt(mb.categories, k);
  }

  /**
   * handleSubmitMonth: every category named like the edited one replaced
   * by `{ ...c, ...data }` (which is `data`), or `data` appended; nothing
   * when no month is loaded.
   */
  function MonthSubmission(mb: Option<MonthlyBudget>, edit: Option<MonthlyCategory>, data: MonthlyCategory): (r: Option<seq<MonthlyCategory>>)
    ensures r.Some? <==> mb.Some?
    ensures r.Some? && edit.Some? ==> (|r.value| == |mb.value.categories|
      && forall i :: 0 <= i < |r.value| ==>
           r.value[i] == (if mb.value.categories[i].name == edit.value.name then data else mb.value.categories[i]))
    ensures r.Some? && edit.None? ==> r.value == mb.value.categories + [data]
  {
    if mb.None? then None
    else if edit.Some? then Some(ReplaceWhere(mb.value.categories, CategoryNameOf, edit.value.name, data))
    else Some(mb.value.categories + [data])
  }

  /**
   * The month's total budget after a submission: raised by the new
   * category's budget, or, with distinct names, moved by the change in the
   * edited category's budget.
   */
  lemma MonthSubmissionTotal(mb: MonthlyBudget, edit: Option<MonthlyCategory>, data: MonthlyCategory, k: nat)
    requires edit.Some? ==> DistinctKeys(mb.categories, CategoryNameOf) && k < |mb.categories| && mb.categories[k].name == edit.value.name
    ensures edit.None? ==> SumBudgets(MonthSubmission(Some(mb), edit, data).value) == SumBudgets(mb.categories) + data.budget
    ensures edit.Some? ==> SumBudgets(MonthSubmission(Some(mb), edit, data).value) == SumBudgets(mb.categories) - mb.categories[k].budget + data.budget
  {
    if edit.Some? {
      ReplaceWhereUnique(mb.categories, CategoryNameOf, k, data);
      SumBudgetsUpdateAt(mb.categories, k, data);
    } else {
      SumBudgetsPush(mb.categories, data);
    }
  }

  // ---------------------------------------------------------------------
  // The month picker.

  /** The ◀ of the month picker: January wraps to December. */
  function PrevMonth(m: int): (r: int)
    requires 1 <= m <= 12
    ensures 1 <= r <= 12
    ensures NextMonth(r) == m
  {
    if m == 1 then 12 else m - 1
  }

  /** The ▶ of the month picker: December wraps to January. */
  function NextMonth(m: int): (r: int)
    requires 1 <= m <= 12
    ensures 1 <= r <= 12
    ensures r == m % 12 + 1
  {
    if m == 12 then 1 else m + 1
  }

  /** After `steps` presses of ▶ the picker shows the month `steps` months later, counted modulo 12. */
  lemma {:induction false} ForwardSteps(m: int, steps: nat)
    requires 1 <= m <= 12
    ensures Forward(m, steps) == (m - 1 + steps) % 12 + 1
    decreases steps
  {
    if steps > 0 {
      ForwardSteps(NextMonth(m), steps - 1);
      if m == 12 {
        assert (m - 1 + steps) % 12 == (steps - 1 + 12) % 12;
      }
    }
  }

  /** Twelve presses of ▶ come back to the same month. */
  lemma TwelveStepsRoundTrip(m: int)
    requires 1 <= m <= 12
    ensures Forward(m, 12) == m
  {
    ForwardSteps(m, 12);
  }

  /** `steps` presses of ▶. */
  function Forward(m: int, steps: nat): (r: int)
    requires 1 <= m <= 12
    ensures 1 <= r <= 12
    decreases steps
  {
    if steps == 0 then m else Forward(NextMonth(m), steps - 1)
  }

  // ---------------------------------------------------------------------
  // The screen's state.

  datatype EditMode = PlanMode | MonthMode

  /** `formVisible`, `editCategory`, `editMode`, `selectedMonth` and `selectedYear`. */
  class BudgetScreenState {
    var formVisible: bool
    var editCategory: Option<MonthlyCategory>
    var editMode: EditMode
    var selectedMonth: int
    var selectedYear: int

    /** The picker always shows a month from 1 to 12. */
    predicate Valid()
      reads this
    {
      1 <= selectedMonth <= 12
    }

    /** `now.getMonth() + 1` and `now.getFullYear()`, with the clock's reading passed in. */
    constructor (nowMonthIndex: int, nowYear: int)
      requires 0 <= nowMonthIndex <= 11
      ensures Valid() && selectedMonth == nowMonthIndex + 1 && selectedYear == nowYear
      ensures !formVisible && editCategory == None && editMode == MonthMode
    {
      formVisible := false;
      editCategory := None;
      editMode := MonthMode;
      selectedMonth := nowMonthIndex + 1;
      selectedYear := nowYear;
    }

    method HandleAddPlan()
      modifies this
      ensures editCategory == None && formVisible && editMode == PlanMode
      ensures selectedMonth == old(selectedMonth) && selectedYear == old(selectedYear)
    {
      editCategory := None;
      formVisible := true;
      editMode := PlanMode;
    }

    /** The edited plan category is held as `{ name, budget: defaultBudget }`. */
    method HandleEditPlan(category: PlanCategory)
      modifies this
      ensures editCategory == Some(MonthlyCategory(category.name, category.defaultBudget)) && formVisible && editMode == PlanMode
      ensures selectedMonth == old(selectedMonth) && selectedYear == old(selectedYear)
    {
      editCategory := Some(MonthlyCategory(category.name, category.defaultBudget));
      formVisible := true;
      editMode := PlanMode;
    }

    /** Sends the plan request, then closes the form and forgets the edited category. */
    method HandleSubmitPlan(plan: Option<OverallPlan>, data: MonthlyCategory) returns (request: PlanRequest)
      modifies this
      ensures request == PlanSubmission(plan, old(editCategory), data)
      ensures !formVisible && editCategory == None && editMode == old(editMode)
      ensures selectedMonth == old(selectedMonth) && selectedYear == old(selectedYear)
    {
      request := PlanSubmission(plan, editCategory, data);
      formVisible := false;
      editCategory := None;
    }

    method HandleAddMonth()
      modifies this
      ensures editCategory == None && formVisible && editMode == MonthMode
      ensures selectedMonth == old(selectedMonth) && selectedYear == old(selectedYear)
    {
      editCategory := None;
      formVisible := true;
      editMode := MonthMode;
    }

    method HandleEditMonth(category: MonthlyCategory)
      modifies this
      ensures editCategory == Some(category) && formVisible && editMode == MonthMode
      ensures selectedMonth == old(selectedMonth) && selectedYear == old(selectedYear)
    {
      editCategory := Some(category);
      formVisible := true;
      editMode := MonthMode;
    }

    /**
     * With no month loaded nothing happens; otherwise the categories are
     * sent and the form is hidden. The edited category is NOT cleared.
     */
    method HandleSubmitMonth(mb: Option<MonthlyBudget>, data: MonthlyCategory) returns (request: Option<seq<MonthlyCategory>>)
      modifies this
      ensures request == MonthSubmission(mb, old(editCategory), data)
      ensures mb.None? ==> formVisible == old(formVisible)
      ensures mb.Some? ==> !formVisible
      ensures editCategory == old(editCategory) && editMode == old(editMode)
      ensures selectedMonth == old(selectedMonth) && selectedYear == old(selectedYear)
    {
      request := MonthSubmission(mb, editCategory, data);
      if mb.Some? {
        formVisible := false;
      }
    }

    /** The form's `onClose`. */
    method Close()
      modifies this
      ensures !formVisible && editCategory == old(editCategory) && editMode == old(editMode)
      ensures selectedMonth == old(selectedMonth) && selectedYear == old(selectedYear)
    {
      formVisible := false;
    }

    /** The 'Edit Master Plan' switch. */
    method SetPlanMode(on: bool)
      modifies this
      ensures editMode == (if on then PlanMode else MonthMode)
      ensures formVisible == old(formVisible) && editCategory == old(editCategory)
      ensures selectedMonth == old(selectedMonth) && selectedYear == old(selectedYear)
    {
      editMode := if on then PlanMode else MonthMode;
    }

    method StepMonthBack()
      requires Valid()
      modifies this
      ensures Valid() && selectedMonth == PrevMonth(old(selectedMonth)) && selectedYear == old(selectedYear)
      ensures formVisible == old(formVisible) && editCategory == old(editCategory) && editMode == old(editMode)
    {
      selectedMonth := if selectedMonth == 1 then 12 else selectedMonth - 1;
    }

    method StepMonthForward()
      requires Valid()
      modifies this
      ensures Valid() && selectedMonth == NextMonth(old(selectedMonth)) && selectedYear == old(selectedYear)
      ensures formVisible == old(formVisible) && editCategory == old(editCategory) && editMode == old(editMode)
    {
      selectedMonth := if selectedMonth == 12 then 1 else selectedMonth + 1;
    }

    /** The year picker moves the year alone: stepping past December does not advance it. */
    method StepYear(forward: bool)
      requires Valid()
      modifies this
      ensures Valid() && selectedMonth == old(selectedMonth)
      ensures selectedYear == old(selectedYear) + (if forward then 1 else -1)
      ensures formVisible == old(formVisible) && editCategory == old(editCategory) && editMode == old(editMode)
    {
      selectedYear := if forward then selectedYear + 1 else selectedYear - 1;
    }
  }
}
