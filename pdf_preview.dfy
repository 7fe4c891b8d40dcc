/** The printable invoice of components/InvoicePDFPreview.tsx: its amounts and
    the placeholder text shown when no business profile is loaded. */
module PdfPreview {
  import opened Wrappers
  import opened Domain
  import opened Amounts

  /** The issuer details the preview asks for; each may be missing. */
  datatype BusinessDetails = BusinessDetails(businessName: Option<string>, address: Option<string>, email: Option<string>)

  /** `value || fallback` for an optional string: a missing or empty value
      gives the fallback. */
  function OrElse(value: Option<string>, fallback: string): (r: string)
    ensures (value.Some? && value.value != "") ==> r == value.value
    ensures (value.None? || value.value == "") ==> r == fallback
  {
    if value.Some? && value.value != "" then value.value else fallback
  }

  /** The issuer lines of the preview: header, the From block and the footer. */
  datatype IssuerText = IssuerText(header: string, fromName: string, fromAddress: string, fromEmail: string, footer: string)

  function Issuer(profile: Option<BusinessDetails>): (r: IssuerText)
    ensures profile.None? ==> r == IssuerText("Your Company", "Your Business Name",
      "Your Business Address", "Your Business Email", "Finrp")
    ensures profile.Some? && profile.value.businessName.Some? && profile.value.businessName.value != "" ==>
      r.header == r.fromName == r.footer == profile.value.businessName.value
  {
    var name := if profile.Some? then profile.value.businessName else None;
    var address := if profile.Some? then profile.value.address else None;
    var email := if profile.Some? then profile.value.email else None;
    IssuerText(OrElse(name, "Your Company"), OrElse(name, "Your Business Name"),
      OrElse(address, "Your Business Address"), OrElse(email, "Your Business Email"),
      OrElse(name, "Finrp"))
  }

  /** The three printed totals: subtotal, the tax line and the total. */
  function PrintedTotals(invoice: Invoice): (r: Totals)
    ensures r.subtotal + r.tax == r.total
    ensures r.subtotal == Subtotal(invoice.items) && r.total == Total(invoice.items)
  {
    CopiesAgree(invoice.items);
    Totals(PreviewCalculateTotal(invoice.items, false),
      PreviewCalculateTotal(invoice.items, false) * 0.18,
      PreviewCalculateTotal(invoice.items, true))
  }

  /** Each printed row amount is its quantity × rate. */
  function RowAmounts(invoice: Invoice): (r: seq<real>)
    ensures |r| == |invoice.items|
    ensures forall k :: 0 <= k < |r| ==> r[k] == invoice.items[k].quantity * invoice.items[k].rate
  {
    seq(|invoice.items|, k requires 0 <= k < |invoice.items| => LineAmount(invoice.items[k]))
  }

  /** The sum of a column of amounts, added from the first row on. */
  function Sum(xs: seq<real>): real {
    if xs == [] then 0.0 else Sum(xs[..|xs| - 1]) + xs[|xs| - 1]
  }

  /** The printed row amounts of the first `n` rows add up to the subtotal
      of those rows. */
  lemma {:induction false} RowPrefixSum(invoice: Invoice, n: nat)
    requires n <= |invoice.items|
    ensures Sum(RowAmounts(invoice)[..n]) == Subtotal(invoice.items[..n])
  {
    if n > 0 {
      RowPrefixSum(invoice, n - 1);
      assert RowAmounts(invoice)[..n][..n - 1] == RowAmounts(invoice)[..n - 1];
      assert invoice.items[..n][..n - 1] == invoice.items[..n - 1];
    }
  }

  /** The printed rows add up to the printed subtotal. */
  lemma RowAmountsAddUp(invoice: Invoice)
    ensures Sum(RowAmounts(invoice)) == PrintedTotals(invoice).subtotal
  {
    RowPrefixSum(invoice, |invoice.items|);
    assert RowAmounts(invoice)[..|invoice.items|] == RowAmounts(invoice);
    assert invoice.items[..|invoice.items|] == invoice.items;
  }
}
