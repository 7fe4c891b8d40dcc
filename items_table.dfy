/** The line-item editor of components/InvoiceItemsTable.tsx: add, remove and
    edit rows, each producing the new item list the editor hands back. */
module ItemsTable {
  import opened Wrappers
  import opened Text
  import opened Domain
  import opened Amounts

  /** A field edit: the description text, or a number typed into the quantity
      or rate input. */
  datatype ItemEdit = Description(text: string) | Quantity(input: string) | Rate(input: string)

  /** `parseFloat(input) || 0`: what a numeric input stores; text that does not
      parse (`NaN`, falsy) becomes 0. */
  function NumericInput(input: string): (r: real)
    ensures ParseFloat(input).None? ==> r == 0.0
    ensures ParseFloat(input).Some? ==> r == ParseFloat(input).value
  {
    match ParseFloat(input)
    case Some(v) => v
    case None => 0.0
  }

  /** The item after one field edit. */
  function Apply(item: InvoiceItem, edit: ItemEdit): InvoiceItem {
    match edit
    case Description(t) => item.(description := t)
    case Quantity(s) => item.(quantity := NumericInput(s))
    case Rate(s) => item.(rate := NumericInput(s))
  }

  /** `handleItemChange(index, field, value)`: only the named field of the item
      at `index` changes. An index with no item makes the assignment throw,
      here `None`. */
  function ChangeItem(items: seq<InvoiceItem>, index: int, edit: ItemEdit): (r: Option<seq<InvoiceItem>>)
    ensures r.Some? <==> 0 <= index < |items|
    ensures r.Some? ==> (|r.value| == |items|
      && (forall k :: 0 <= k < |items| && k != index ==> r.value[k] == items[k])
      && r.value[index].id == items[index].id)
  {
    if 0 <= index < |items| then Some(items[index := Apply(items[index], edit)]) else None
  }

  /** Editing one field keeps the other two fields of the row. */
  lemma ChangeItemKeepsOtherFields(items: seq<InvoiceItem>, index: nat, edit: ItemEdit)
    requires index < |items|
    ensures var it := ChangeItem(items, index, edit).value[index];
      match edit
      case Description(t) => it.description == t && it.quantity == items[index].quantity && it.rate == items[index].rate
      case Quantity(s) => it.quantity == NumericInput(s) && it.description == items[index].description && it.rate == items[index].rate
      case Rate(s) => it.rate == NumericInput(s) && it.description == items[index].description && it.quantity == items[index].quantity
  {
  }

  /** The row `handleAddItem` appends at time `now` (milliseconds). */
  function NewItem(now: nat): InvoiceItem {
    InvoiceItem("new-" + NatToString(now), "", 1.0, 0.0)
  }

  /** `handleAddItem`: one blank row (quantity 1, rate 0) appended at the end. */
  function AddItem(items: seq<InvoiceItem>, now: nat): (r: seq<InvoiceItem>)
    ensures |r| == |items| + 1 && r[..|items|] == items
    ensures r[|items|].description == "" && r[|items|].quantity == 1.0 && r[|items|].rate == 0.0
  {
    items + [NewItem(now)]
  }

  /** A new blank row adds nothing to the subtotal. */
  lemma AddItemKeepsSubtotal(items: seq<InvoiceItem>, now: nat)
    ensures Subtotal(AddItem(items, now)) == Subtotal(items)
  {
    assert AddItem(items, now)[..|items|] == items;
  }

  /** `handleRemoveItem(index)`: `filter((_, i) => i !== index)`. */
  function RemoveItem(items: seq<InvoiceItem>, index: int): (r: seq<InvoiceItem>)
    ensures 0 <= index < |items| ==> r == items[..index] + items[index + 1..]
    ensures !(0 <= index < |items|) ==> r == items
  {
    if items == [] then []
    else
      var init := RemoveItem(items[..|items| - 1], index);
      var last := items[|items| - 1];
      if |items| - 1 != index then
        assert items == items[..|items| - 1] + [last];
        assert 0 <= index < |items| - 1 ==>
          items[..|items| - 1][..index] == items[..index]
          && items[..|items| - 1][index + 1..] + [last] == items[index + 1..];
        init + [last]
      else
        init
  }

  /** Removing a row takes exactly its amount off the subtotal. */
  lemma RemoveItemSubtotal(items: seq<InvoiceItem>, index: nat)
    requires index < |items|
    ensures Subtotal(RemoveItem(items, index)) == Subtotal(items) - LineAmount(items[index])
  {
    var a, x, b := items[..index], items[index], items[index + 1..];
    assert items == (a + [x]) + b;
    SubtotalAppend(a + [x], b);
    SubtotalAppend(a, [x]);
    assert [x][..0] == [];
    assert Subtotal([x]) == LineAmount(x);
    SubtotalAppend(a, b);
  }

  /** `calculateAmount`: the row amount, quantity × rate (before `toFixed(2)`),
      and the rows sum to the subtotal shown under the table. */
  lemma RowAmountsSum(items: seq<InvoiceItem>)
    ensures ItemsTableTotals(items).subtotal == Subtotal(items)
    ensures ItemsTableTotals(items).tax == Subtotal(items) * 0.18
    ensures ItemsTableTotals(items).total == ItemsTableTotals(items).subtotal + ItemsTableTotals(items).tax
  {
    CopiesAgree(items);
  }
}
