/** The parts inventory screen (components/InventoryView.tsx): search, the
    low-stock flag, the item form with its save normalisation, and the
    two-step delete. */
module Inventory {
  import opened Types
  import Seqs
  import Text
  import Shell

  const DefaultCategory: string := "PEÇAS"

  /** `Partial<InventoryItem>`: every field of the form may be missing. A
      number field holds `None` where `Number(...)` would give NaN. */
  datatype ItemForm = ItemForm(
    name: Option<string>,
    code: Option<string>,
    category: Option<string>,
    costPrice: Option<real>,
    salePrice: Option<real>,
    quantity: Option<real>,
    minQuantity: Option<real>,
    location: Option<string>,
    imageUrl: Option<string>)

  /** The form `handleOpenAdd` starts from: empty texts, category 'PEÇAS',
      prices and quantity 0, minimum quantity 5. */
  const NewItemForm := ItemForm(Some(""), Some(""), Some(DefaultCategory), Some(0.0), Some(0.0),
                                Some(0.0), Some(5.0), Some(""), Some(""))

  /** `handleOpenEdit`: the form holds the item's own values. */
  function EditForm(item: InventoryItem): (f: ItemForm)
    ensures f.name == Some(item.name) && f.code == Some(item.code) && f.category == Some(item.category)
    ensures f.costPrice == Some(item.costPrice) && f.salePrice == Some(item.salePrice)
    ensures f.quantity == Some(item.quantity) && f.minQuantity == Some(item.minQuantity)
    ensures f.location == item.location && f.imageUrl == item.imageUrl
  {
    ItemForm(Some(item.name), Some(item.code), Some(item.category), Some(item.costPrice),
             Some(item.salePrice), Some(item.quantity), Some(item.minQuantity), item.location, item.imageUrl)
  }

  /** `x || fallback` on an optional string: a missing or empty text gives
      the fallback. */
  function TextOr(x: Option<string>, fallback: string): (r: string)
    ensures x.Some? && x.value != "" ==> r == x.value
    ensures x.None? || x.value == "" ==> r == fallback
  {
    if x.Some? && x.value != "" then x.value else fallback
  }

  /** `handleSave`: nothing without a name; otherwise the item with the
      id of the item being edited (a fresh one for a new item, or when that
      id is empty), every missing text as '' except the category, which
      becomes 'PEÇAS', and every missing number as 0. */
  function SaveItem(form: ItemForm, editing: Option<InventoryItem>, freshId: string): (r: Option<InventoryItem>)
    ensures r.None? <==> form.name.None? || form.name.value == ""
    ensures r.Some? ==> r.value.name == form.name.value
    ensures r.Some? ==> r.value.id == (if editing.Some? && editing.value.id != "" then editing.value.id else freshId)
    ensures r.Some? ==> r.value.code == TextOr(form.code, "") && r.value.category == TextOr(form.category, DefaultCategory)
    ensures r.Some? ==> r.value.location == Some(TextOr(form.location, "")) && r.value.imageUrl == Some(TextOr(form.imageUrl, ""))
    ensures r.Some? ==> r.value.costPrice == OrZero(form.costPrice) && r.value.salePrice == OrZero(form.salePrice)
    ensures r.Some? ==> r.value.quantity == OrZero(form.quantity) && r.value.minQuantity == OrZero(form.minQuantity)
  {
    if form.name.None? || form.name.value == "" then None
    else
      var id := if editing.Some? && editing.value.id != "" then editing.value.id else freshId;
      Some(InventoryItem(
        id, form.name.value, TextOr(form.code, ""), TextOr(form.category, DefaultCategory),
        OrZero(form.costPrice), OrZero(form.salePrice), OrZero(form.quantity),
        OrZero(form.minQuantity), Some(TextOr(form.location, "")), Some(TextOr(form.imageUrl, ""))))
  }

  /** `quantity <= minQuantity`. */
  predicate IsLowStock(item: InventoryItem)
  {
    item.quantity <= item.minQuantity
  }

  /** Opening an item and saving it unchanged gives back the same item,
      whenever the item is in the normal form a save produces (non-empty
      id, name and category, location and image present). */
  lemma EditSaveRoundTrip(item: InventoryItem, freshId: string)
    requires item.id != "" && item.name != "" && item.category != ""
    requires item.location.Some? && item.imageUrl.Some?
    ensures SaveItem(EditForm(item), Some(item), freshId) == Some(item)
  {
  }

  /** Saving is idempotent: re-opening a saved item and saving it again
      changes nothing. */
  lemma SaveIdempotent(form: ItemForm, editing: Option<InventoryItem>, freshId: string, freshId': string)
    requires SaveItem(form, editing, freshId).Some?
    ensures var item := SaveItem(form, editing, freshId).value;
      item.id != "" ==> SaveItem(EditForm(item), Some(item), freshId') == Some(item)
  {
    var item := SaveItem(form, editing, freshId).value;
    if item.id != "" {
      EditSaveRoundTrip(item, freshId');
    }
  }

  /** An item saved from an untouched new-item form (only a name typed) is
      in stock 0 with minimum 5, so it is flagged low-stock. */
  lemma NewItemIsLowStock(name: string, freshId: string)
    requires name != ""
    ensures SaveItem(NewItemForm.(name := Some(name)), None, freshId).Some?
    ensures IsLowStock(SaveItem(NewItemForm.(name := Some(name)), None, freshId).value)
  {
  }

  /** The search condition: the lower-cased query occurs in the lower-cased
      name or code. */
  predicate Matches(item: InventoryItem, query: string)
  {
    Text.Contains(Text.ToLower(item.name), Text.ToLower(query))
    || Text.Contains(Text.ToLower(item.code), Text.ToLower(query))
  }

  /** `filteredItems`: the matching items, in inventory order. */
  function FilteredItems(items: seq<InventoryItem>, query: string): (r: seq<InventoryItem>)
    ensures |r| <= |items|
    ensures forall item :: item in r <==> item in items && Matches(item, query)
  {
    Seqs.Filter(items, (item: InventoryItem) => Matches(item, query))
  }

  /** An empty search shows the whole inventory, in order. */
  lemma EmptyQueryShowsAll(items: seq<InventoryItem>)
    ensures FilteredItems(items, "") == items
  {
    forall item | item in items
      ensures Matches(item, "")
    {
      Text.ContainsEmpty(Text.ToLower(item.name));
    }
    Seqs.FilterAll(items, (item: InventoryItem) => Matches(item, ""));
  }

  /** The screen's own state: the form, the item being edited, and the id
      waiting for delete confirmation. */
  class InventoryScreen {
    var isModalOpen: bool
    var editingItem: Option<InventoryItem>
    var form: ItemForm
    var itemToDeleteId: Option<string>

    constructor ()
      ensures !isModalOpen && editingItem.None? && form == NewItemForm && itemToDeleteId.None?
    {
      isModalOpen := false;
      editingItem := None;
      form := NewItemForm;
      itemToDeleteId := None;
    }

    /** `handleOpenAdd`. */
    method OpenAdd()
      modifies this
      ensures isModalOpen && editingItem.None? && form == NewItemForm
      ensures itemToDeleteId == old(itemToDeleteId)
    {
      editingItem := None;
      form := NewItemForm;
      isModalOpen := true;
    }

    /** `handleOpenEdit`. */
    method OpenEdit(item: InventoryItem)
      modifies this
      ensures isModalOpen && editingItem == Some(item) && form == EditForm(item)
      ensures itemToDeleteId == old(itemToDeleteId)
    {
      editingItem := Some(item);
      form := EditForm(item);
      isModalOpen := true;
    }

    /** `handleConfirmDelete`: remember which item to delete. */
    method ConfirmDelete(id: string)
      modifies this
      ensures itemToDeleteId == Some(id)
      ensures isModalOpen == old(isModalOpen) && editingItem == old(editingItem) && form == old(form)
    {
      itemToDeleteId := Some(id);
    }

    /** `executeDelete`: only with a (non-empty) pending id, the items with
        that id leave the shell's inventory and the pending id is cleared;
        otherwise nothing changes. */
    method ExecuteDelete(w: Shell.Workshop)
      modifies this, w
      ensures old(itemToDeleteId).Some? && old(itemToDeleteId).value != "" ==>
        w.inventory == Seqs.RemoveKey(old(w.inventory), InventoryId, old(itemToDeleteId).value)
        && itemToDeleteId.None?
      ensures old(itemToDeleteId).None? || old(itemToDeleteId).value == "" ==>
        w.inventory == old(w.inventory) && itemToDeleteId == old(itemToDeleteId)
      ensures w.services == old(w.services) && w.serviceHistory == old(w.serviceHistory)
      ensures w.customers == old(w.customers) && w.transactions == old(w.transactions)
      ensures isModalOpen == old(isModalOpen) && editingItem == old(editingItem) && form == old(form)
      ensures w.currentView == old(w.currentView)
      ensures w.selectedServiceId == old(w.selectedServiceId) && w.workshopInfo == old(w.workshopInfo)
      ensures w.finishedCountToday == old(w.finishedCountToday) && w.nextServiceNumber == old(w.nextServiceNumber)
    {
      if itemToDeleteId.Some? && itemToDeleteId.value != "" {
        w.DeleteInventoryItem(itemToDeleteId.value);
        itemToDeleteId := None;
      }
    }

    /** `handleSave`: a nameless form saves nothing and keeps the dialog
        open; otherwise the normalised item is upserted into the shell's
        inventory and the dialog closes. */
    method Save(w: Shell.Workshop, freshId: string)
      modifies this, w
      ensures SaveItem(old(form), old(editingItem), freshId).None? ==>
        w.inventory == old(w.inventory) && isModalOpen == old(isModalOpen)
      ensures SaveItem(old(form), old(editingItem), freshId).Some? ==>
        w.inventory == Seqs.Upsert(old(w.inventory), InventoryId, SaveItem(old(form), old(editingItem), freshId).value)
        && !isModalOpen
      ensures w.services == old(w.services) && w.serviceHistory == old(w.serviceHistory)
      ensures w.customers == old(w.customers) && w.transactions == old(w.transactions)
      ensures form == old(form) && editingItem == old(editingItem) && itemToDeleteId == old(itemToDeleteId)
      ensures w.currentView == old(w.currentView)
      ensures w.selectedServiceId == old(w.selectedServiceId) && w.workshopInfo == old(w.workshopInfo)
      ensures w.finishedCountToday == old(w.finishedCountToday) && w.nextServiceNumber == old(w.nextServiceNumber)
    {
      var item := SaveItem(form, editingItem, freshId);
      if item.Some? {
        w.SaveInventoryItem(item.value);
        isModalOpen := false;
      }
    }
  }
}
