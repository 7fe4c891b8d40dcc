/** Invoice amounts: line amount, subtotal, 18% tax and total, and the four
    places in the application that recompute them from the item list. */
module Amounts {
  import opened Domain

  const TaxRate: real := 0.18

  /** The amount of one row: quantity × rate, unrounded. */
  function LineAmount(item: InvoiceItem): real {
    item.quantity * item.rate
  }

  /** The reference subtotal: the sum of the line amounts. */
  function Subtotal(items: seq<InvoiceItem>): real {
    if items == [] then 0.0 else Subtotal(items[..|items| - 1]) + LineAmount(items[|items| - 1])
  }

  function Tax(items: seq<InvoiceItem>): real {
    Subtotal(items) * TaxRate
  }

  function Total(items: seq<InvoiceItem>): real {
    Subtotal(items) + Tax(items)
  }

  /** `items.reduce((acc, item) => acc + item.quantity * item.rate, acc)`:
      the left fold every copy of the formula performs. */
  function Reduce(acc: real, items: seq<InvoiceItem>): real
    decreases items
  {
    if items == [] then acc else Reduce(acc + items[0].quantity * items[0].rate, items[1..])
  }

  /** The subtotal of a concatenation is the sum of the subtotals. */
  lemma {:induction false} SubtotalAppend(a: seq<InvoiceItem>, b: seq<InvoiceItem>)
    ensures Subtotal(a + b) == Subtotal(a) + Subtotal(b)
  {
    if b == [] {
      assert a + b == a;
    } else {
      SubtotalAppend(a, b[..|b| - 1]);
      assert (a + b)[..|a + b| - 1] == a + b[..|b| - 1];
    }
  }

  /** The left fold started at `acc` adds the subtotal to `acc`. */
  lemma {:induction false} ReduceIsSubtotal(acc: real, items: seq<InvoiceItem>)
    ensures Reduce(acc, items) == acc + Subtotal(items)
    decreases items
  {
    if items != [] {
      ReduceIsSubtotal(acc + LineAmount(items[0]), items[1..]);
      SubtotalAppend([items[0]], items[1..]);
      assert [items[0]] + items[1..] == items;
      assert Subtotal([items[0]]) == LineAmount(items[0]) by {
        assert [items[0]][..0] == [];
      }
    }
  }

  /** With non-negative quantities and rates no amount is negative. */
  lemma {:induction false} SubtotalNonNegative(items: seq<InvoiceItem>)
    requires forall i :: 0 <= i < |items| ==> items[i].quantity >= 0.0 && items[i].rate >= 0.0
    ensures Subtotal(items) >= 0.0 && Tax(items) >= 0.0 && Total(items) >= Subtotal(items)
  {
    if items != [] {
      SubtotalNonNegative(items[..|items| - 1]);
      var last := items[|items| - 1];
      assert last.quantity >= 0.0 && last.rate >= 0.0;
      assert LineAmount(last) >= 0.0;
    }
  }

  datatype Totals = Totals(subtotal: real, tax: real, total: real)

  /** The summary under the item editor (components/InvoiceItemsTable.tsx). */
  function ItemsTableTotals(items: seq<InvoiceItem>): Totals {
    var subtotal := Reduce(0.0, items);
    var tax := subtotal * 0.18;
    Totals(subtotal, tax, subtotal + tax)
  }

  /** `calculateTotal(withTax)` of the printable preview (components/InvoicePDFPreview.tsx). */
  function PreviewCalculateTotal(items: seq<InvoiceItem>, withTax: bool): real {
    var subtotal := Reduce(0.0, items);
    if !withTax then subtotal else subtotal + subtotal * 0.18
  }

  /** `calculateTotal` of the invoice list (components/BillingPage.tsx), written as × 1.18. */
  function ListCalculateTotal(items: seq<InvoiceItem>): real {
    Reduce(0.0, items) * 1.18
  }

  /** The amount quoted in a payment reminder (components/AIAssistant.tsx). */
  function ReminderAmount(items: seq<InvoiceItem>): real {
    Reduce(0.0, items) * 1.18
  }

  /** Every copy of the formula agrees with the reference definitions, so an
      invoice never shows two different amounts. */
  lemma CopiesAgree(items: seq<InvoiceItem>)
    ensures ItemsTableTotals(items) == Totals(Subtotal(items), Tax(items), Total(items))
    ensures PreviewCalculateTotal(items, false) == Subtotal(items)
    ensures PreviewCalculateTotal(items, true) == Total(items)
    ensures ListCalculateTotal(items) == Total(items)
    ensures ReminderAmount(items) == Total(items)
  {
    ReduceIsSubtotal(0.0, items);
  }

  /** An empty item list gives zero subtotal, tax and total in every copy. */
  lemma EmptyIsZero()
    ensures Subtotal([]) == 0.0 && Tax([]) == 0.0 && Total([]) == 0.0
    ensures ItemsTableTotals([]) == Totals(0.0, 0.0, 0.0)
    ensures PreviewCalculateTotal([], true) == 0.0 && ListCalculateTotal([]) == 0.0
  {
  }

  /** One item of 40 × 500 gives 20000 + 3600 = 23600. */
  lemma WebDevelopmentExample(id: string, description: string)
    ensures var items := [InvoiceItem(id, description, 40.0, 500.0)];
      Subtotal(items) == 20000.0 && Tax(items) == 3600.0 && Total(items) == 23600.0
  {
    var items := [InvoiceItem(id, description, 40.0, 500.0)];
    assert items[..0] == [];
  }
}
