/**
 * The monthly-budget routes: `GET /:year/:month` (find the month, or create
 * it from the user's overall plan), `PUT /:id` (replace the categories),
 * `POST /:id/items` (edit or add an item) and `DELETE /:id/items/:itemId`.
 * The collection is a sequence in insertion order with an id counter that
 * stands for ObjectId generation; item ids come from the same counter.
 * `save()` validates the whole document, `findByIdAndUpdate` does not.
 */
module MonthlyBudgetRoutes {
  import opened Common
  import opened KeyedLists
  import opened MonthlyBudgetModel
  import opened OverallPlanModel
  import opened OverallPlanRoutes
  import opened Summary

  /** `req.query.userId || 'default'`: a missing or empty query falls back to 'default'. */
  function EffectiveUserId(query: Option<string>): (u: string)
    ensures u != ""
    ensures query.Some? && query.value != "" ==> u == query.value
    ensures query.None? || query.value == "" ==> u == "default"
  {
    if query.Some? && query.value != "" then query.value else "default"
  }

  /** Key functions: `_id`, and the `{ year, month, userId }` filter of the GET route. */
  function DocIdOf(m: MonthlyBudget): DocId { m.id }
  function MonthKeyOf(m: MonthlyBudget): (int, int, string) { (m.year, m.month, m.userId) }

  /** `MonthlyBudget.findOne({ year, month, userId })` */
  function FindMonth(docs: seq<MonthlyBudget>, year: int, month: int, userId: string): (r: Option<MonthlyBudget>)
    ensures r.Some? ==> r.value in docs && MonthKeyOf(r.value) == (year, month, userId)
    ensures r.None? <==> !HasKey(docs, MonthKeyOf, (year, month, userId))
  {
    match FirstIndex(docs, MonthKeyOf, (year, month, userId))
    case None => None
    case Some(i) => Some(docs[i])
  }

  /** `MonthlyBudget.findById(id)` */
  function FindDoc(docs: seq<MonthlyBudget>, id: DocId): (r: Option<MonthlyBudget>)
    ensures r.Some? ==> r.value in docs && r.value.id == id
    ensures r.None? <==> !HasKey(docs, DocIdOf, id)
  {
    match FirstIndex(docs, DocIdOf, id)
    case None => None
    case Some(i) => Some(docs[i])
  }

  // ---------------------------------------------------------------------
  // Creating a month from the overall plan.

  /** `plan.categories.map(c => ({ name: c.name, budget: c.defaultBudget }))` */
  function ToMonthlyCategories(cs: seq<PlanCategory>): (r: seq<MonthlyCategory>)
    ensures |r| == |cs|
    ensures forall i :: 0 <= i < |cs| ==> r[i].name == cs[i].name && r[i].budget == cs[i].defaultBudget
  {
    if cs == [] then []
    else
      var last := cs[|cs| - 1];
      ToMonthlyCategories(cs[..|cs| - 1]) + [MonthlyCategory(last.name, last.defaultBudget)]
  }

  /** The plan's total default budget, summed as the month's total is. */
  function SumDefaultBudgets(cs: seq<PlanCategory>): real {
    if cs == [] then 0.0 else SumDefaultBudgets(cs[..|cs| - 1]) + cs[|cs| - 1].defaultBudget
  }

  /** A freshly created month budgets exactly what the plan does, in total. */
  lemma {:induction false} CopiedCategoriesKeepTotal(cs: seq<PlanCategory>)
    ensures SumBudgets(ToMonthlyCategories(cs)) == SumDefaultBudgets(cs)
  {
    if cs != [] {
      var init := cs[..|cs| - 1];
      var last := cs[|cs| - 1];
      CopiedCategoriesKeepTotal(init);
      SumBudgetsPush(ToMonthlyCategories(init), MonthlyCategory(last.name, last.defaultBudget));
    }
  }

  /** The new document built by the GET route when the month does not exist yet. */
  function Materialize(id: DocId, year: int, month: int, userId: string, plan: OverallPlan): (r: MonthlyBudget)
    ensures r.id == id && MonthKeyOf(r) == (year, month, userId)
    ensures r.items == [] && r.categories == ToMonthlyCategories(plan.categories)
    ensures ValidPlan(plan) && userId != "" ==> ValidMonthlyBudget(r)
    ensures TotalBudget(Some(r)) == SumDefaultBudgets(plan.categories) && TotalSpent(Some(r)) == 0.0
  {
    CopiedCategoriesKeepTotal(plan.categories);
    MonthlyBudget(id, month, year, userId, ToMonthlyCategories(plan.categories), [])
  }

  // ---------------------------------------------------------------------
  // Items.

  /** `Object.assign(subdoc, item)`: each field the body carries overwrites the item's; `_id` is kept. */
  function MergeItem(it: BudgetItem, patch: ItemPatch): (r: BudgetItem)
    ensures r.id == it.id
    ensures r.categoryName == patch.categoryName.GetOr(it.categoryName)
    ensures r.name == patch.name.GetOr(it.name)
    ensures r.amount == patch.amount.GetOr(it.amount)
    ensures r.date == patch.date.GetOr(it.date)
    ensures patch.note.Some? ==> r.note == patch.note
    ensures patch.note.None? ==> r.note == it.note
  {
    BudgetItem(
      it.id,
      patch.categoryName.GetOr(it.categoryName),
      patch.name.GetOr(it.name),
      patch.amount.GetOr(it.amount),
      patch.date.GetOr(it.date),
      if patch.note.Some? then patch.note else it.note)
  }

  /** The body that carries no fields. */
  const EmptyPatch := ItemPatch(None, None, None, None, None)

  /** Merging is idempotent, and an empty body leaves the item as it was. */
  lemma MergeItemIdempotent(it: BudgetItem, patch: ItemPatch)
    ensures MergeItem(MergeItem(it, patch), patch) == MergeItem(it, patch)
    ensures MergeItem(it, EmptyPatch) == it
  {
  }

  /** Every field that BudgetItemSchema requires is present and, for strings, not empty. */
  predicate Complete(patch: ItemPatch) {
    patch.categoryName.Some? && patch.categoryName.value != "" &&
    patch.name.Some? && patch.name.value != "" &&
    patch.amount.Some? && patch.date.Some?
  }

  /**
   * `items.push(item)`: the sub-document the body becomes, with id `id`.
   * Without an amount or a date there is nothing to store in the typed
   * fields and `save()` fails; missing strings become empty, which
   * validation rejects.
   */
  function NewItem(id: ItemId, patch: ItemPatch): (r: Option<BudgetItem>)
    ensures r.Some? <==> patch.amount.Some? && patch.date.Some?
    ensures r.Some? ==> r.value.id == id && r.value.amount == patch.amount.value && r.value.note == patch.note
    ensures r.Some? ==> r.value.categoryName == patch.categoryName.GetOr("") && r.value.name == patch.name.GetOr("")
                        && r.value.date == patch.date.value
    ensures (r.Some? && ValidItem(r.value)) <==> Complete(patch)
  {
    if patch.amount.None? || patch.date.None? then None
    else Some(BudgetItem(id, patch.categoryName.GetOr(""), patch.name.GetOr(""), patch.amount.value, patch.date.value, patch.note))
  }

  /**
   * `POST /:id/items` on the found document `m`: with an `itemId`, merge
   * the body into that item (404 when absent); without one, append a new
   * item with id `freshId`. Then `save()` validates the whole document.
   */
  function SaveItem(m: MonthlyBudget, patch: ItemPatch, itemId: Option<ItemId>, freshId: ItemId): (r: Result<MonthlyBudget>)
    ensures r == Err(ItemNotFound) <==> itemId.Some? && !HasKey(m.items, ItemIdOf, itemId.value)
    ensures r.Err? ==> r.error in {ItemNotFound, ValidationFailed}
    ensures r.Ok? ==> ValidMonthlyBudget(r.value) && r.value == m.(items := r.value.items)
    ensures r.Ok? && itemId.None? ==>
      |r.value.items| == |m.items| + 1 && r.value.items[..|m.items|] == m.items && r.value.items[|m.items|].id == freshId
      && Some(r.value.items[|m.items|]) == NewItem(freshId, patch)
    ensures r.Ok? && itemId.Some? ==>
      var j := FirstIndex(m.items, ItemIdOf, itemId.value).value;
      r.value.items == m.items[j := MergeItem(m.items[j], patch)]
  {
    match itemId
    case Some(x) =>
      (match FirstIndex(m.items, ItemIdOf, x)
       case None => Err(ItemNotFound)
       case Some(j) =>
         var updated := m.(items := m.items[j := MergeItem(m.items[j], patch)]);
         if ValidMonthlyBudget(updated) then Ok(updated) else Err(ValidationFailed))
    case None =>
      (match NewItem(freshId, patch)
       case None => Err(ValidationFailed)
       case Some(it) =>
         var updated := m.(items := m.items + [it]);
         assert updated.items[..|m.items|] == m.items;
         if ValidMonthlyBudget(updated) then Ok(updated) else Err(ValidationFailed))
  }

  /** On a valid month, adding succeeds exactly for a complete body, and raises the spent total by its amount. */
  lemma AddItemOutcome(m: MonthlyBudget, patch: ItemPatch, freshId: ItemId)
    requires ValidMonthlyBudget(m)
    ensures SaveItem(m, patch, None, freshId).Ok? <==> Complete(patch)
    ensures SaveItem(m, patch, None, freshId).Ok? ==>
      SumAmounts(SaveItem(m, patch, None, freshId).value.items) == SumAmounts(m.items) + patch.amount.value
  {
    var r := NewItem(freshId, patch);
    if r.Some? {
      var updated := m.(items := m.items + [r.value]);
      assert SaveItem(m, patch, None, freshId) == if ValidMonthlyBudget(updated) then Ok(updated) else Err(ValidationFailed);
      ValidAppendItem(m, r.value);
      SumAmountsPush(m.items, r.value);
    }
  }

  /**
   * On a valid month holding the item, an edit succeeds exactly when it
   * blanks neither required string, and moves the spent total by the change
   * in that item's amount.
   */
  lemma EditItemOutcome(m: MonthlyBudget, patch: ItemPatch, x: ItemId)
    requires ValidMonthlyBudget(m) && HasKey(m.items, ItemIdOf, x)
    ensures SaveItem(m, patch, Some(x), 0).Ok? <==> patch.categoryName != Some("") && patch.name != Some("")
    ensures var j := FirstIndex(m.items, ItemIdOf, x).value;
      SaveItem(m, patch, Some(x), 0).Ok? ==>
        SumAmounts(SaveItem(m, patch, Some(x), 0).value.items)
          == SumAmounts(m.items) - m.items[j].amount + patch.amount.GetOr(m.items[j].amount)
  {
    var j := FirstIndex(m.items, ItemIdOf, x).value;
    var merged := MergeItem(m.items[j], patch);
    var s := m.items[j := merged];
    assert AllItemsValid(s) <==> ValidItem(merged) by {
      assert s[j] == merged;
      assert forall i :: 0 <= i < |s| && i != j ==> s[i] == m.items[i];
    }
    SumAmountsUpdateAt(m.items, j, merged);
  }

  /** `items.pull(itemId)` on the found document (404 when no item has the id), then `save()`. */
  function PullItem(m: MonthlyBudget, itemId: ItemId): (r: Result<MonthlyBudget>)
    ensures r == Err(ItemNotFound) <==> !HasKey(m.items, ItemIdOf, itemId)
    ensures r.Err? ==> r.error in {ItemNotFound, ValidationFailed}
    ensures r.Ok? ==> ValidMonthlyBudget(r.value) && r.value == m.(items := r.value.items)
    ensures r.Ok? ==> !HasKey(r.value.items, ItemIdOf, itemId)
    ensures r.Ok? ==> forall i :: 0 <= i < |m.items| && m.items[i].id != itemId ==> m.items[i] in r.value.items
  {
    match FirstIndex(m.items, ItemIdOf, itemId)
    case None => Err(ItemNotFound)
    case Some(_) =>
      var updated := m.(items := RemoveKey(m.items, ItemIdOf, itemId));
      if ValidMonthlyBudget(updated) then Ok(updated) else Err(ValidationFailed)
  }

  /**
   * On a valid month whose item ids are distinct, deleting an item that
   * exists always succeeds, removes exactly that item and lowers the spent
   * total by its amount.
   */
  lemma DeleteItemOutcome(m: MonthlyBudget, itemId: ItemId)
    requires ValidMonthlyBudget(m) && DistinctKeys(m.items, ItemIdOf) && HasKey(m.items, ItemIdOf, itemId)
    ensures var j := FirstIndex(m.items, ItemIdOf, itemId).value;
      PullItem(m, itemId) == Ok(m.(items := m.items[..j] + m.items[j + 1..]))
      && |PullItem(m, itemId).value.items| == |m.items| - 1
      && SumAmounts(PullItem(m, itemId).value.items) == SumAmounts(m.items) - m.items[j].amount
  {
    var j := FirstIndex(m.items, ItemIdOf, itemId).value;
    var s := m.items[..j] + m.items[j + 1..];
    RemoveKeyUnique(m.items, ItemIdOf, itemId, j);
    ItemsValidRemoveAt(m.items, j);
    var updated := m.(items := s);
    assert ValidMonthlyBudget(updated);
    assert PullItem(m, itemId) == Ok(updated);
    SumAmountsRemoveAt(m.items, j);
  }

  /** Dropping one item keeps the rest valid. */
  lemma ItemsValidRemoveAt(items: seq<BudgetItem>, j: nat)
    requires AllItemsValid(items) && j < |items|
    ensures AllItemsValid(items[..j] + items[j + 1..])
  {
    var s := items[..j] + items[j + 1..];
    forall i | 0 <= i < |s| ensures ValidItem(s[i]) {
      if i < j {
        assert s[i] == items[i];
      } else {
        assert s[i] == items[i + 1];
      }
    }
  }

  /**
   * `PUT /:id` stores categories without validating them; once a category
   * without a name is stored, every later item write to that month is
   * refused by `save()`.
   */
  lemma UnnamedCategoryBlocksItemWrites(m: MonthlyBudget, patch: ItemPatch, itemId: Option<ItemId>, freshId: ItemId, x: ItemId)
    requires !AllCategoriesValid(m.categories)
    ensures SaveItem(m, patch, itemId, freshId).Err?
    ensures PullItem(m, x).Err?
  {
  }

  // ---------------------------------------------------------------------
  // The collection.

  /** A stored document: its header passed validation, its items did too and have distinct ids below `bound`. */
  predicate StoredWell(m: MonthlyBudget, bound: nat) {
    m.id < bound && ValidHeader(m) && AllItemsValid(m.items) && DistinctKeys(m.items, ItemIdOf)
    && forall j :: 0 <= j < |m.items| ==> m.items[j].id < bound
  }

  class MonthlyBudgetStore {
    var docs: seq<MonthlyBudget>
    var nextId: nat

    /**
     * Ids are distinct and below the counter, a (year, month, user) has at
     * most one document, and every document is stored well. The categories
     * are not part of it: `PUT /:id` does not validate them.
     */
    predicate Valid()
      reads this
    {
      DistinctKeys(docs, DocIdOf) && DistinctKeys(docs, MonthKeyOf)
      && forall i :: 0 <= i < |docs| ==> StoredWell(docs[i], nextId)
    }

    constructor ()
      ensures Valid() && docs == [] && nextId == 0
    {
      docs := [];
      nextId := 0;
    }

    /**
     * `GET /:year/:month`: the stored month if there is one; otherwise the
     * user's plan copied into a new, empty month (404 'No plan found' when
     * the user has no plan). The month returned is what the same GET finds
     * from then on.
     */
    method GetOrCreate(year: int, month: int, userQuery: Option<string>, plans: PlanStore) returns (r: Result<MonthlyBudget>)
      requires Valid() && plans.Valid()
      modifies this
      ensures Valid()
      ensures var userId := EffectiveUserId(userQuery);
        FindMonth(old(docs), year, month, userId).Some? ==>
          r == Ok(FindMonth(old(docs), year, month, userId).value) && docs == old(docs) && nextId == old(nextId)
      ensures var userId := EffectiveUserId(userQuery);
        FindMonth(old(docs), year, month, userId).None? && FindPlan(plans.plans, userId).None? ==>
          r == Err(NoPlanFound) && docs == old(docs) && nextId == old(nextId)
      ensures var userId := EffectiveUserId(userQuery);
        FindMonth(old(docs), year, month, userId).None? && FindPlan(plans.plans, userId).Some? ==>
          r == Ok(Materialize(old(nextId), year, month, userId, FindPlan(plans.plans, userId).value))
          && docs == old(docs) + [r.value] && nextId == old(nextId) + 1
      ensures r.Ok? ==> ValidHeader(r.value) && FindMonth(docs, year, month, EffectiveUserId(userQuery)) == Some(r.value)
    {
      var userId := EffectiveUserId(userQuery);
      var existing := FindMonth(docs, year, month, userId);
      if existing.Some? {
        return Ok(existing.value);
      }
      var plan := FindPlan(plans.plans, userId);
      if plan.None? {
        return Err(NoPlanFound);
      }
      var m := Materialize(nextId, year, month, userId, plan.value);
      assert ValidMonthlyBudget(m);
      DistinctAppend(docs, DocIdOf, m);
      DistinctAppend(docs, MonthKeyOf, m);
      FirstIndexPush(docs, m, MonthKeyOf, (year, month, userId));
      docs := docs + [m];
      nextId := nextId + 1;
      r := Ok(m);
    }

    /** `PUT /:id`: `findByIdAndUpdate(id, { categories })`, 404 'Not found' for an unknown id, and no validation. */
    method ReplaceCategories(id: DocId, categories: seq<MonthlyCategory>) returns (r: Result<MonthlyBudget>)
      requires Valid()
      modifies this
      ensures Valid() && nextId == old(nextId)
      ensures FindDoc(old(docs), id).None? ==> r == Err(NotFound) && docs == old(docs)
      ensures FindDoc(old(docs), id).Some? ==>
        r == Ok(FindDoc(old(docs), id).value.(categories := categories))
        && docs == ReplaceWhere(old(docs), DocIdOf, id, r.value)
        && FindDoc(docs, id) == Some(r.value)
    {
      var i := FirstIndex(docs, DocIdOf, id);
      if i.None? {
        return Err(NotFound);
      }
      var m := docs[i.value].(categories := categories);
      Store(i.value, m);
      r := Ok(m);
    }

    /** `POST /:id/items`: 404 'Not found' for an unknown document, otherwise the outcome of `SaveItem`, stored on success. */
    method UpsertItem(id: DocId, patch: ItemPatch, itemId: Option<ItemId>) returns (r: Result<MonthlyBudget>)
      requires Valid()
      modifies this
      ensures Valid()
      ensures FindDoc(old(docs), id).None? ==> r == Err(NotFound)
      ensures FindDoc(old(docs), id).Some? ==> r == SaveItem(FindDoc(old(docs), id).value, patch, itemId, old(nextId))
      ensures r.Ok? ==> docs == ReplaceWhere(old(docs), DocIdOf, id, r.value) && FindDoc(docs, id) == Some(r.value)
      ensures r.Ok? ==> nextId == old(nextId) + (if itemId.None? then 1 else 0)
      ensures r.Err? ==> docs == old(docs) && nextId == old(nextId)
    {
      var i := FirstIndex(docs, DocIdOf, id);
      if i.None? {
        return Err(NotFound);
      }
      var m := docs[i.value];
      r := SaveItem(m, patch, itemId, nextId);
      if r.Ok? {
        if itemId.None? {
          var added := r.value.items[|m.items|];
          assert r.value.items == m.items + [added];
          DistinctAppend(m.items, ItemIdOf, added);
          RaiseBound(nextId);
          nextId := nextId + 1;
        } else {
          var j := FirstIndex(m.items, ItemIdOf, itemId.value).value;
          OverwriteKeepsDistinct(m.items, ItemIdOf, j, MergeItem(m.items[j], patch));
        }
        Store(i.value, r.value);
      }
    }

    /** `DELETE /:id/items/:itemId`: 404 'Not found' or 'Item not found', otherwise the outcome of `PullItem`, stored on success. */
    method DeleteItem(id: DocId, itemId: ItemId) returns (r: Result<MonthlyBudget>)
      requires Valid()
      modifies this
      ensures Valid() && nextId == old(nextId)
      ensures FindDoc(old(docs), id).None? ==> r == Err(NotFound)
      ensures FindDoc(old(docs), id).Some? ==> r == PullItem(FindDoc(old(docs), id).value, itemId)
      ensures r.Ok? ==> docs == ReplaceWhere(old(docs), DocIdOf, id, r.value) && FindDoc(docs, id) == Some(r.value)
      ensures r.Err? ==> docs == old(docs)
    {
      var i := FirstIndex(docs, DocIdOf, id);
      if i.None? {
        return Err(NotFound);
      }
      var m := docs[i.value];
      r := PullItem(m, itemId);
      if r.Ok? {
        DistinctRemoveKey(m.items, ItemIdOf, itemId);
        Store(i.value, r.value);
      }
    }

    /** Every document stored well below the counter is stored well below a larger one. */
    lemma RaiseBound(bound: nat)
      requires forall i :: 0 <= i < |docs| ==> StoredWell(docs[i], bound)
      ensures forall i :: 0 <= i < |docs| ==> StoredWell(docs[i], bound + 1)
    {
    }

    /** Overwrite document `i` with `m`, which keeps its id and its (year, month, user). */
    method Store(i: nat, m: MonthlyBudget)
      requires Valid() && i < |docs|
      requires m.id == docs[i].id && MonthKeyOf(m) == MonthKeyOf(docs[i]) && StoredWell(m, nextId)
      modifies this
      ensures Valid() && nextId == old(nextId)
      ensures docs == old(docs)[i := m]
      ensures docs == ReplaceWhere(old(docs), DocIdOf, m.id, m) && FindDoc(docs, m.id) == Some(m)
    {
      OverwriteKeepsDistinct(docs, DocIdOf, i, m);
      OverwriteKeepsDistinct(docs, MonthKeyOf, i, m);
      ReplaceWhereUnique(docs, DocIdOf, i, m);
      DistinctFirstIndexAt(docs[i := m], DocIdOf, i);
      docs := docs[i := m];
    }
  }
}
