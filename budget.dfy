/** The budget editor of a service order (components/BudgetDetails.tsx): the
    item list and the discount are state that the add, remove and update
    handlers replace; subtotal and total are derived from it. */
module Budget {
  import opened Types
  import Seqs

  /** The edits `updateItem` receives: the field named and the raw input.
      The result of `parseInt`/`parseFloat` is given as an option, `None`
      standing for NaN. */
  datatype ItemEdit =
    | EditName(name: string)
    | EditQty(parsedQty: Option<int>)
    | EditUnitPrice(parsedPrice: Option<real>)

  /** The new value of one item under an edit: only the named field
      changes. */
  function ApplyEdit(item: BudgetItem, edit: ItemEdit): (r: BudgetItem)
    ensures r.id == item.id
    ensures edit.EditName? ==> r == item.(name := edit.name)
    ensures edit.EditQty? ==> r == item.(qty := OrZeroInt(edit.parsedQty))
    ensures edit.EditUnitPrice? ==> r == item.(unitPrice := OrZero(edit.parsedPrice))
  {
    match edit
    case EditName(n) => item.(name := n)
    case EditQty(q) => item.(qty := OrZeroInt(q))
    case EditUnitPrice(p) => item.(unitPrice := OrZero(p))
  }

  /** `items.map(item => item.id === id ? edited : item)`. */
  function UpdateItems(items: seq<BudgetItem>, id: string, edit: ItemEdit): (r: seq<BudgetItem>)
    ensures |r| == |items|
    ensures forall i :: 0 <= i < |items| ==>
      r[i] == if items[i].id == id then ApplyEdit(items[i], edit) else items[i]
  {
    if items == [] then []
    else
      var first := if items[0].id == id then ApplyEdit(items[0], edit) else items[0];
      [first] + UpdateItems(items[1..], id, edit)
  }

  /** Σ line totals of the items carrying the given id. */
  function SubtotalWithId(items: seq<BudgetItem>, id: string): real
  {
    if items == [] then 0.0
    else (if items[0].id == id then LineTotal(items[0]) else 0.0) + SubtotalWithId(items[1..], id)
  }

  /** Removing the items with an id takes exactly their line totals off the
      subtotal. */
  lemma {:induction false} RemoveItemSubtotal(items: seq<BudgetItem>, id: string)
    ensures Subtotal(items)
         == Subtotal(Seqs.RemoveKey(items, BudgetItemId, id)) + SubtotalWithId(items, id)
  {
    if items != [] {
      RemoveItemSubtotal(items[1..], id);
      assert items == [items[0]] + items[1..];
      SubtotalCons(items[0], items[1..]);
      if items[0].id != id {
        SubtotalCons(items[0], Seqs.RemoveKey(items[1..], BudgetItemId, id));
      }
    }
  }

  /** Renaming an item never changes the subtotal. */
  lemma RenameKeepsSubtotal(items: seq<BudgetItem>, id: string, name: string)
    ensures Subtotal(UpdateItems(items, id, EditName(name))) == Subtotal(items)
  {
    var r := UpdateItems(items, id, EditName(name));
    assert forall i :: 0 <= i < |items| ==> LineTotal(r[i]) == LineTotal(items[i]);
    SubtotalPointwise(r, items);
  }

  /** The state of the budget screen. */
  class BudgetEditor {
    var items: seq<BudgetItem>
    var discount: real

    /** Items and discount start from the service's own, defaulting to no
        items and no discount. */
    constructor (initialItems: Option<seq<BudgetItem>>, initialDiscount: Option<real>)
      ensures items == (if initialItems.Some? then initialItems.value else [])
      ensures discount == (if initialDiscount.Some? then initialDiscount.value else 0.0)
    {
      items := if initialItems.Some? then initialItems.value else [];
      discount := if initialDiscount.Some? then initialDiscount.value else 0.0;
    }

    function SubtotalOf(): real
      reads this
    {
      Subtotal(items)
    }

    /** `subtotal - discount`, with no lower bound: a discount larger than
        the subtotal gives a negative total. */
    function Total(): real
      reads this
    {
      Subtotal(items) - discount
    }

    /** The approve button is enabled only with at least one item. */
    predicate CanApprove()
      reads this
    {
      |items| > 0
    }

    /** `addItem`: one new empty line (name '', price 0, quantity 1) at the
        end; the subtotal does not move. */
    method AddItem(freshId: string)
      modifies this
      ensures items == old(items) + [BudgetItem(freshId, "", 0.0, 1)]
      ensures discount == old(discount)
      ensures SubtotalOf() == old(SubtotalOf())
      ensures CanApprove()
    {
      items := items + [BudgetItem(freshId, "", 0.0, 1)];
      assert items[..|items| - 1] == old(items);
    }

    /** `removeItem`: drops every line with that id, keeps the rest in
        order, and lowers the subtotal by exactly their line totals. */
    method RemoveItem(id: string)
      modifies this
      ensures items == Seqs.RemoveKey(old(items), BudgetItemId, id)
      ensures discount == old(discount)
      ensures SubtotalOf() == old(SubtotalOf()) - SubtotalWithId(old(items), id)
    {
      RemoveItemSubtotal(items, id);
      items := Seqs.RemoveKey(items, BudgetItemId, id);
    }

    /** `updateItem`: only the named field of the lines with that id
        changes. */
    method UpdateItem(id: string, edit: ItemEdit)
      modifies this
      ensures items == UpdateItems(old(items), id, edit)
      ensures discount == old(discount)
      ensures edit.EditName? ==> SubtotalOf() == old(SubtotalOf())
    {
      if edit.EditName? {
        RenameKeepsSubtotal(items, id, edit.name);
      }
      items := UpdateItems(items, id, edit);
    }

    /** The discount input: the parsed number, or 0 when parsing fails. */
    method SetDiscount(parsed: Option<real>)
      modifies this
      ensures discount == OrZero(parsed)
      ensures items == old(items)
    {
      discount := OrZero(parsed);
    }
  }
}
