/** The BudgetCategories screen: a category's percentage and band, and the submit that dispatches an edit or an add. */
module BudgetCategoriesScreen {
  import opened Common
  import opened KeyedLists
  import opened AppContext
  import opened Summary

  /**
   * `(item.spent / item.budget) * 100` as written, with no guard. `None`
   * stands for the non-finite number (Infinity or NaN) that the floating-point
   * division gives for a zero budget.
   */
  function PercentageAsWritten(spent: real, budget: real): (r: Option<real>)
    ensures r.None? <==> budget == 0.0
    ensures r.Some? ==> r.value * budget == spent * 100.0
  {
    if budget == 0.0 then None else Some((spent / budget) * 100.0)
  }

  /** A category with a zero budget gets no finite percentage to draw its bar or "% spent" text with. */
  lemma ZeroBudgetHasNoPercentage(spent: real)
    ensures PercentageAsWritten(spent, 0.0).None?
  {
  }

  /** The percentage with the zero guard the Budget and Home screens use: a zero budget shows 0. */
  function Percentage(spent: real, budget: real): (r: real)
    ensures budget == 0.0 ==> r == 0.0
    ensures budget != 0.0 ==> PercentageAsWritten(spent, budget) == Some(r)
  {
    if budget == 0.0 then 0.0 else (spent / budget) * 100.0
  }

  /** Within a positive budget the band follows the share spent: red past 90%, orange past 75%. */
  lemma CategoryBand(spent: real, budget: real)
    requires budget > 0.0
    ensures BandOf(Percentage(spent, budget)) == Red <==> spent * 10.0 > budget * 9.0
    ensures BandOf(Percentage(spent, budget)) == Green <==> spent * 4.0 <= budget * 3.0
  {
    BandOfShare(spent, budget, Percentage(spent, budget));
  }

  /**
   * The row of renderCategoryItem as written: the percentage it draws, or
   * `None` when there is none to draw, because the category has no `spent`
   * (`item.spent.toFixed(2)` throws) or its budget is zero.
   */
  function RowAsWritten(c: BudgetCategory): (r: Option<real>)
    ensures r.Some? <==> c.spent.Some? && c.budget != 0.0
    ensures r.Some? ==> r.value * c.budget == c.spent.value * 100.0
  {
    if c.spent.None? then None else PercentageAsWritten(c.spent.value, c.budget)
  }

  /** What BudgetCategoryForm's handleSave submits: `{ name, budget: Number(budget) }`, with no `spent`. */
  datatype CategoryFormData = CategoryFormData(name: string, budget: real)

  /** What handleSubmit dispatches to the context. */
  datatype CategoryCommand = UpdateCommand(category: BudgetCategory) | AddCommand(draft: CategoryDraft)

  /**
   * `editCategory ? updateBudgetCategory({ ...editCategory, ...data }) : addBudgetCategory(data)`
   * as written: an edit keeps the id and the stored `spent` and takes the
   * form's name and budget; an add hands on a draft without `spent`.
   */
  function SubmissionAsWritten(edit: Option<BudgetCategory>, data: CategoryFormData): (cmd: CategoryCommand)
    ensures edit.Some? <==> cmd.UpdateCommand?
    ensures edit.Some? ==> cmd.category.id == edit.value.id && cmd.category.spent == edit.value.spent
                           && cmd.category.name == data.name && cmd.category.budget == data.budget
    ensures edit.None? ==> cmd.draft.name == data.name && cmd.draft.budget == data.budget && cmd.draft.spent.None?
  {
    if edit.Some? then UpdateCommand(edit.value.(name := data.name, budget := data.budget))
    else AddCommand(CategoryDraft(data.name, data.budget, None))
  }

  /** The list the context stores for a command; `now` is the add's `Date.now()` id. */
  function Dispatch(cs: seq<BudgetCategory>, cmd: CategoryCommand, now: string): (r: seq<BudgetCategory>)
    ensures cmd.UpdateCommand? ==> |r| == |cs|
    ensures cmd.AddCommand? ==> |r| == |cs| + 1 && r[..|cs|] == cs && r[|cs|].id == now
  {
    match cmd
    case UpdateCommand(c) => ReplaceWhere(cs, CategoryIdOf, c.id, c)
    case AddCommand(d) =>
      assert (cs + [d.WithId(now)])[..|cs|] == cs;
      cs + [d.WithId(now)]
  }

  /** A category added through the form as written has no `spent`, so its row has nothing to draw. */
  lemma AddedCategoryHasNoSpent(cs: seq<BudgetCategory>, data: CategoryFormData, now: string)
    ensures var r := Dispatch(cs, SubmissionAsWritten(None, data), now);
      r[|cs|].spent.None? && RowAsWritten(r[|cs|]).None?
  {
  }

  /** The submission with the add corrected: a new category starts with nothing spent. */
  function Submission(edit: Option<BudgetCategory>, data: CategoryFormData): (cmd: CategoryCommand)
    ensures edit.Some? ==> cmd == SubmissionAsWritten(edit, data)
    ensures edit.None? ==> cmd.AddCommand? && cmd.draft.name == data.name && cmd.draft.budget == data.budget
                           && cmd.draft.spent == Some(0.0)
  {
    if edit.Some? then SubmissionAsWritten(edit, data) else AddCommand(CategoryDraft(data.name, data.budget, Some(0.0)))
  }

  /**
   * Editing the category at position `k` (ids distinct) replaces exactly
   * that one: its id and stored `spent` stay, its name and budget become the
   * form's.
   */
  lemma EditReplacesOnlyThatCategory(cs: seq<BudgetCategory>, k: nat, data: CategoryFormData, now: string)
    requires DistinctKeys(cs, CategoryIdOf) && k < |cs|
    ensures var r := Dispatch(cs, Submission(Some(cs[k]), data), now);
      r == cs[k := cs[k].(name := data.name, budget := data.budget)]
      && r[k].id == cs[k].id && r[k].spent == cs[k].spent
  {
    ReplaceWhereUnique(cs, CategoryIdOf, k, cs[k].(name := data.name, budget := data.budget));
  }

  /** Adding appends one category with the form's name and budget, the new id and nothing spent. */
  lemma AddAppendsOneCategory(cs: seq<BudgetCategory>, data: CategoryFormData, now: string)
    ensures Dispatch(cs, Submission(None, data), now) == cs + [BudgetCategory(now, data.name, data.budget, Some(0.0))]
  {
  }

  /** Every stored category has a `spent`.  */
  predicate SpentPresent(cs: seq<BudgetCategory>) {
    forall i :: 0 <= i < |cs| ==> cs[i].spent.Some?
  }

  /** With the corrected add, every row keeps a `spent` to draw, for edits of stored categories and for adds alike. */
  lemma SpentStaysPresent(cs: seq<BudgetCategory>, edit: Option<BudgetCategory>, data: CategoryFormData, now: string)
    requires SpentPresent(cs) && (edit.Some? ==> edit.value.spent.Some?)
    ensures SpentPresent(Dispatch(cs, Submission(edit, data), now))
  {
    var r := Dispatch(cs, Submission(edit, data), now);
    if edit.Some? {
      var c := edit.value.(name := data.name, budget := data.budget);
      forall i | 0 <= i < |r| ensures r[i].spent.Some? {
        if CategoryIdOf(cs[i]) == c.id {
          assert r[i] == c;
        } else {
          assert r[i] == cs[i];
        }
      }
    } else {
      forall i | 0 <= i < |r| ensures r[i].spent.Some? {
        if i < |cs| {
          assert r[i] == cs[i];
        }
      }
    }
  }

  /** handleDelete: after the Alert, 'Delete' removes the category from the context and 'Cancel' leaves the list alone. */
  function Deletion(cs: seq<BudgetCategory>, id: string, confirmed: bool): (r: seq<BudgetCategory>)
    ensures !confirmed ==> r == cs
    ensures confirmed ==> !HasKey(r, CategoryIdOf, id)
                          && forall i :: 0 <= i < |cs| && cs[i].id != id ==> cs[i] in r
  {
    if confirmed then RemoveKey(cs, CategoryIdOf, id) else cs
  }
}
