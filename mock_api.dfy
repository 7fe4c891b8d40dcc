/** The in-memory invoice store of services/mockApi.ts: a module-level array
    seeded with four invoices, read by copy, upserted by `saveInvoice`, and a
    next-number rule that looks only at the first entry. */
module MockApi {
  import opened Wrappers
  import opened Text
  import opened Domain
  import opened BillingService

  function SeedCustomers(): (r: seq<Customer>)
    ensures |r| == 4
  {
    [ Customer("cust-001", "Amit Patel", "123 Tech Park, Bangalore", "amit@example.com"),
      Customer("cust-002", "Sunita Reddy", "456 IT Hub, Hyderabad", "sunita@example.com"),
      Customer("cust-003", "Vikram Singh", "789 Business Bay, Mumbai", "vikram@example.com"),
      Customer("cust-004", "Priya Sharma", "101 Cyber City, Gurgaon", "priya@example.com") ]
  }

  function SeedInvoices(): (r: seq<Invoice>)
    ensures |r| == 4
  {
    var c := SeedCustomers();
    [ Invoice("INV-2024-001", c[0], "2024-03-10", "2024-03-25",
        [ InvoiceItem("item-1", "Web Development Services", 40.0, 500.0),
          InvoiceItem("item-2", "Domain Name Registration (1 year)", 1.0, 1000.0) ],
        InvoiceStatus.Paid, Some("Thank you for your business!")),
      Invoice("INV-2024-002", c[1], "2024-03-15", "2024-03-30",
        [ InvoiceItem("item-3", "Steel Rods 12mm", 50.0, 370.0) ],
        InvoiceStatus.Overdue, Some("Payment is overdue. Please settle at the earliest.")),
      Invoice("INV-2024-003", c[2], "2024-04-01", "2024-04-16",
        [ InvoiceItem("item-4", "Consulting Services - March", 20.0, 1600.0) ],
        InvoiceStatus.Pending, None),
      Invoice("INV-2024-004", c[3], "2024-04-05", "2024-04-20",
        [ InvoiceItem("item-5", "Graphic Design Package", 1.0, 50000.0) ],
        InvoiceStatus.Draft, None) ]
  }

  /** `findIndex` on the id: the first position holding that id. */
  function FindIndex(invoices: seq<Invoice>, id: string): (r: Option<nat>)
    ensures r.Some? ==> r.value < |invoices| && invoices[r.value].id == id
    ensures r.Some? ==> forall k :: 0 <= k < r.value ==> invoices[k].id != id
    ensures r.None? ==> forall k :: 0 <= k < |invoices| ==> invoices[k].id != id
  {
    if invoices == [] then None
    else if invoices[0].id == id then Some(0)
    else match FindIndex(invoices[1..], id)
      case Some(k) => Some(k + 1)
      case None => None
  }

  /** The store after `saveInvoice(invoice)`: replaced in place when the id is
      present, otherwise put at the front. */
  function Upsert(invoices: seq<Invoice>, invoice: Invoice): seq<Invoice> {
    match FindIndex(invoices, invoice.id)
    case Some(i) => invoices[i := invoice]
    case None => [invoice] + invoices
  }

  predicate UniqueIds(invoices: seq<Invoice>) {
    forall i, j :: 0 <= i < j < |invoices| ==> invoices[i].id != invoices[j].id
  }

  /** An existing id is replaced at its own index; nothing else moves. */
  lemma UpsertExisting(invoices: seq<Invoice>, invoice: Invoice, i: nat)
    requires i < |invoices| && invoices[i].id == invoice.id && UniqueIds(invoices)
    ensures |Upsert(invoices, invoice)| == |invoices|
    ensures Upsert(invoices, invoice)[i] == invoice
    ensures forall k :: 0 <= k < |invoices| && k != i ==> Upsert(invoices, invoice)[k] == invoices[k]
  {
  }

  /** A new id goes to index 0 and every earlier entry moves up by one. */
  lemma UpsertNew(invoices: seq<Invoice>, invoice: Invoice)
    requires forall k :: 0 <= k < |invoices| ==> invoices[k].id != invoice.id
    ensures |Upsert(invoices, invoice)| == |invoices| + 1
    ensures Upsert(invoices, invoice)[0] == invoice
    ensures Upsert(invoices, invoice)[1..] == invoices
  {
  }

  /** Saving keeps ids unique and leaves exactly one entry with the saved id. */
  lemma UpsertKeepsIdsUnique(invoices: seq<Invoice>, invoice: Invoice)
    requires UniqueIds(invoices)
    ensures UniqueIds(Upsert(invoices, invoice))
    ensures invoice in Upsert(invoices, invoice)
  {
    var r := Upsert(invoices, invoice);
    match FindIndex(invoices, invoice.id)
    case Some(i) =>
      assert r[i] == invoice;
      forall a, b | 0 <= a < b < |r| ensures r[a].id != r[b].id {
        if a == i { assert r[b] == invoices[b]; }
        else if b == i { assert r[a] == invoices[a]; }
      }
    case None =>
      assert r[0] == invoice;
      forall a, b | 0 <= a < b < |r| ensures r[a].id != r[b].id {
        if a == 0 { assert r[b] == invoices[b - 1]; }
        else { assert r[a] == invoices[a - 1] && r[b] == invoices[b - 1]; }
      }
  }

  /** The third `-`-separated part of an id, if it has one. */
  function ThirdPart(id: string): Option<string> {
    var parts := Split(id, IsDash);
    if |parts| >= 3 then Some(parts[2]) else None
  }

  /** `lastId`: 0 for an empty store, otherwise `parseInt` of the third part of
      the first id, `None` standing for `NaN` (also when there is no third part). */
  function LastSequence(invoices: seq<Invoice>): Option<int> {
    if |invoices| == 0 then Some(0)
    else match ThirdPart(invoices[0].id)
      case Some(p) => ParseInt(p)
      case None => None
  }

  /** The mock's next id: always year 2024; `NaN + 1` prints as `NaN`, which
      `padStart(3, '0')` leaves alone. */
  function MockNextId(invoices: seq<Invoice>): string {
    match LastSequence(invoices)
    case Some(n) => FormatId(2024, n + 1)
    case None => "INV-2024-NaN"
  }

  class InvoiceStore {
    var invoices: seq<Invoice>

    constructor ()
      ensures invoices == SeedInvoices()
    {
      invoices := SeedInvoices();
    }

    /** `getInvoices`: a copy of the array. Invoices are values in this model;
        in the source the copy is of the list only and shares the invoice
        objects with the store. */
    method GetInvoices() returns (r: seq<Invoice>)
      ensures r == invoices
    {
      r := invoices;
    }

    /** `getCustomers`: the fixed customer list. */
    method GetCustomers() returns (r: seq<Customer>)
      ensures r == SeedCustomers()
    {
      r := SeedCustomers();
    }

    /** `saveInvoice`: upsert by id, resolving with its argument. */
    method SaveInvoice(invoice: Invoice) returns (saved: Invoice)
      modifies this
      ensures saved == invoice
      ensures invoices == Upsert(old(invoices), invoice)
    {
      var index := FindIndex(invoices, invoice.id);
      if index.Some? {
        invoices := invoices[index.value := invoice];
      } else {
        invoices := [invoice] + invoices;
      }
      saved := invoice;
    }

    /** `getNextInvoiceId`: reads only the first entry. */
    method GetNextInvoiceId() returns (id: string)
      ensures id == MockNextId(invoices)
      ensures |invoices| == 0 ==> id == "INV-2024-001"
      ensures |invoices| > 0 && SequenceOf(invoices[0].id).Some?
        ==> id == FormatId(2024, SequenceOf(invoices[0].id).value + 1)
    {
      var lastId: Option<int>;
      if |invoices| > 0 {
        var parts := Split(invoices[0].id, IsDash);
        lastId := if |parts| >= 3 then ParseInt(parts[2]) else None;
      } else {
        lastId := Some(0);
      }
      if lastId.Some? {
        id := "INV-2024-" + PadStart(IntToString(lastId.value + 1), 3, '0');
        MockFormat(lastId.value + 1);
      } else {
        id := "INV-2024-NaN";
      }
      if |invoices| == 0 {
        MockNextIdEmpty();
      } else if SequenceOf(invoices[0].id).Some? {
        LastSequenceAgrees(invoices);
      }
    }
  }

  lemma MockFormat(n: int)
    ensures "INV-2024-" + PadStart(IntToString(n), 3, '0') == FormatId(2024, n)
  {
    YearDigits();
  }

  /** An empty store gives `INV-2024-001`. */
  lemma MockNextIdEmpty()
    ensures MockNextId([]) == "INV-2024-001"
  {
    YearDigits();
    assert IntToString(1) == "1";
  }

  /** Where the listing rule finds a sequence in the first id, the mock reads the same one. */
  lemma LastSequenceAgrees(invoices: seq<Invoice>)
    requires |invoices| > 0 && SequenceOf(invoices[0].id).Some?
    ensures LastSequence(invoices) == SequenceOf(invoices[0].id)
  {
  }

  /** Only the first entry decides the mock's next id. */
  lemma MockNextIdReadsFirstOnly(a: seq<Invoice>, b: seq<Invoice>)
    requires |a| > 0 && |b| > 0 && a[0].id == b[0].id
    ensures MockNextId(a) == MockNextId(b)
  {
  }

  /** An id without a third part gives `INV-2024-NaN`. */
  lemma MockNextIdNaN(invoices: seq<Invoice>)
    requires |invoices| > 0 && |Split(invoices[0].id, IsDash)| < 3
    ensures MockNextId(invoices) == "INV-2024-NaN"
  {
  }

  lemma SeedIdsUnique()
    ensures UniqueIds(SeedInvoices())
  {
  }

  /** On the seed data the mock proposes `INV-2024-002`, the id of the second
      seeded invoice; saving a new invoice under it overwrites that invoice
      instead of adding one. */
  lemma SeedNextIdCollides(next: Invoice)
    requires next.id == MockNextId(SeedInvoices())
    ensures MockNextId(SeedInvoices()) == "INV-2024-002"
    ensures SeedInvoices()[1].id == MockNextId(SeedInvoices())
    ensures |Upsert(SeedInvoices(), next)| == 4
    ensures Upsert(SeedInvoices(), next)[1] == next
  {
    SeedFirstSequence();
    NextAfterFirst(SeedInvoices());
    SeedIdsUnique();
    UpsertExisting(SeedInvoices(), next, 1);
  }

  lemma NextAfterFirst(invoices: seq<Invoice>)
    requires LastSequence(invoices) == Some(1)
    ensures MockNextId(invoices) == "INV-2024-002"
  {
    FormatSmall(2);
  }

  lemma SeedFirstSequence()
    ensures LastSequence(SeedInvoices()) == Some(1)
  {
    var p := "001";
    var id := "INV-" + NatToString(2024) + "-" + p;
    YearDigits();
    SmallDigits();
    assert id == SeedInvoices()[0].id;
    DigitsHaveNoDash(NatToString(2024));
    DigitsHaveNoDash(p);
    SplitThree("INV", NatToString(2024), p);
    assert id == "INV" + "-" + NatToString(2024) + "-" + p;
    ParseIntDigits(p, []);
    assert p + [] == p;
  }
}
