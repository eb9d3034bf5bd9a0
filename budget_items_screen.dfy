/**
 * The BudgetItems screen: the most-recent-first list, and the form state
 * that decides whether a submit edits an item or adds one.
 */
module BudgetItemsScreen {
  import opened Common
  import opened MonthlyBudgetModel
  import opened ItemOrder

  /** The list shown: every item of the month, most recent first; nothing when no month is loaded. */
  function DisplayedItems(mb: Option<MonthlyBudget>): (r: seq<BudgetItem>)
    ensures mb.None? ==> r == []
    ensures mb.Some? ==> multiset(r) == multiset(mb.value.items) && |r| == |mb.value.items|
    ensures DateDescending(r)
  {
    if mb.None? then [] else SortByDateDesc(mb.value.items)
  }

  /** The call `addOrEditBudgetItem(data, itemId?)` that a submit makes. */
  datatype ItemRequest = ItemRequest(item: ItemPatch, itemId: Option<ItemId>)

  /** `formVisible` and `editItem`, the screen's state fields. */
  class ItemFormState {
    var formVisible: bool
    var editItem: Option<BudgetItem>

    constructor ()
      ensures !formVisible && editItem == None
    {
      formVisible := false;
      editItem := None;
    }

    method HandleAdd()
      modifies this
      ensures formVisible && editItem == None
    {
      editItem := None;
      formVisible := true;
    }

    method HandleEdit(item: BudgetItem)
      modifies this
      ensures formVisible && editItem == Some(item)
    {
      editItem := Some(item);
      formVisible := true;
    }

    /** Editing passes the edited item's `_id`, adding passes none; afterwards the form is closed and nothing is being edited. */
    method HandleSubmit(data: ItemPatch) returns (request: ItemRequest)
      modifies this
      ensures request.item == data
      ensures old(editItem).Some? ==> request.itemId == Some(old(editItem).value.id)
      ensures old(editItem).None? ==> request.itemId == None
      ensures !formVisible && editItem == None
    {
      if editItem.Some? {
        request := ItemRequest(data, Some(editItem.value.id));
      } else {
        request := ItemRequest(data, None);
      }
      formVisible := false;
      editItem := None;
    }

    /** The form's `onClose`. */
    method Close()
      modifies this
      ensures !formVisible && editItem == None
    {
      formVisible := false;
      editItem := None;
    }
  }

  /** A long press asks for confirmation; only 'Delete' sends `deleteBudgetItem(id)`. */
  function DeleteRequest(id: ItemId, confirmed: bool): (r: Option<ItemId>)
    ensures r.Some? <==> confirmed
    ensures r.Some? ==> r.value == id
  {
    if confirmed then Some(id) else None
  }
}
