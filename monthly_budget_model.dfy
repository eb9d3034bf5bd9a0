/**
 * The MonthlyBudget document: a month's categories and its ledger of items.
 * A required String field counts as missing when it is empty (Mongoose's
 * `required` validator rejects ''); numbers and dates are always present
 * because the types here always carry them.
 */
module MonthlyBudgetModel {
  import opened Common

  /** Document `_id` of a MonthlyBudget. */
  type DocId = nat
  /** Sub-document `_id` of a BudgetItem. */
  type ItemId = nat
  /** A calendar date; only its order matters (as `getTime()` gives it). */
  type Date = int

  datatype MonthlyCategory = MonthlyCategory(name: string, budget: real)

  datatype BudgetItem = BudgetItem(
    id: ItemId,
    categoryName: string,
    name: string,
    amount: real,
    date: Date,
    note: Option<string>)

  datatype MonthlyBudget = MonthlyBudget(
    id: DocId,
    month: int,
    year: int,
    userId: string,
    categories: seq<MonthlyCategory>,
    items: seq<BudgetItem>)

  /** `Partial<IBudgetItem>`: the fields a request body's `item` carries; `None` is an absent field. */
  datatype ItemPatch = ItemPatch(
    categoryName: Option<string>,
    name: Option<string>,
    amount: Option<real>,
    date: Option<Date>,
    note: Option<string>)

  /** Key functions for the keyed-list operations. */
  function ItemIdOf(i: BudgetItem): ItemId { i.id }
  function CategoryNameOf(c: MonthlyCategory): string { c.name }

  /** MonthlyBudgetCategorySchema: `name` required (`budget` is a number). */
  predicate ValidMonthlyCategory(c: MonthlyCategory) {
    c.name != ""
  }

  /** BudgetItemSchema: `categoryName` and `name` required (`amount`, `date` are typed); `note` optional. */
  predicate ValidItem(i: BudgetItem) {
    i.categoryName != "" && i.name != ""
  }

  /** MonthlyBudgetSchema: `userId` required (`month`, `year` are numbers). */
  predicate ValidHeader(m: MonthlyBudget) {
    m.userId != ""
  }

  predicate AllItemsValid(items: seq<BudgetItem>) {
    forall i :: 0 <= i < |items| ==> ValidItem(items[i])
  }

  predicate AllCategoriesValid(cs: seq<MonthlyCategory>) {
    forall i :: 0 <= i < |cs| ==> ValidMonthlyCategory(cs[i])
  }

  /** What `save()` checks: the header and every sub-document. */
  predicate ValidMonthlyBudget(m: MonthlyBudget) {
    ValidHeader(m) && AllCategoriesValid(m.categories) && AllItemsValid(m.items)
  }

  /** Whether an item is valid never depends on its optional note. */
  lemma NoteIsOptional(i: BudgetItem, note: Option<string>)
    ensures ValidItem(i.(note := note)) <==> ValidItem(i)
  {
  }

  /** A document with one more item is valid exactly when the document and the new item are. */
  lemma ValidAppendItem(m: MonthlyBudget, x: BudgetItem)
    ensures ValidMonthlyBudget(m.(items := m.items + [x])) <==> ValidMonthlyBudget(m) && ValidItem(x)
  {
    var s := m.items + [x];
    assert s[|m.items|] == x;
    assert forall i :: 0 <= i < |m.items| ==> s[i] == m.items[i];
  }
}
