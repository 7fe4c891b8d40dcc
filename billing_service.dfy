/** The client side of the invoice API (services/billingService.ts): the two
    listings that turn every failure into an empty list, the save request, and
    the next invoice number computed from the listing. */
module BillingService {
  import opened Wrappers
  import opened Text
  import opened Domain

  /** How a `fetch` ended: a response with an OK status and a body, a response
      with another status, or a thrown error (network failure, bad JSON). */
  datatype FetchOutcome<T> = Ok(body: T) | NotOk(status: int) | Threw

  /** `getInvoices`: the listing, or `[]` for a non-OK response or an error. */
  function GetInvoices(outcome: FetchOutcome<seq<Invoice>>): (r: seq<Invoice>)
    ensures outcome.Ok? ==> r == outcome.body
    ensures !outcome.Ok? ==> r == []
  {
    if outcome.Ok? then outcome.body else []
  }

  /** `getCustomers`: the same fallback for the customer listing. */
  function GetCustomers(outcome: FetchOutcome<seq<Customer>>): (r: seq<Customer>)
    ensures outcome.Ok? ==> r == outcome.body
    ensures !outcome.Ok? ==> r == []
  {
    if outcome.Ok? then outcome.body else []
  }

  /** The body `saveInvoice` posts: every field of the invoice plus the
      customer's id as `customerId`. */
  datatype InvoicePayload = InvoicePayload(invoice: Invoice, customerId: string)

  datatype SaveError = FailedToSave | Rethrown

  /** `saveInvoice`: the payload sent, and the stored invoice the server echoes
      or the error the promise rejects with. */
  function SaveInvoice(invoice: Invoice, outcome: FetchOutcome<Invoice>): (r: (InvoicePayload, Result<Invoice, SaveError>))
    ensures r.0.invoice == invoice && r.0.customerId == invoice.customer.id
    ensures r.1.Success? <==> outcome.Ok?
    ensures outcome.Ok? ==> r.1.value == outcome.body
    ensures outcome.NotOk? ==> r.1 == Failure(FailedToSave)
  {
    var payload := InvoicePayload(invoice, invoice.customer.id);
    match outcome
    case Ok(saved) => (payload, Success(saved))
    case NotOk(_) => (payload, Failure(FailedToSave))
    case Threw => (payload, Failure(Rethrown))
  }

  // ---- invoice numbers ---------------------------------------------------------

  predicate IsDash(c: char) { c == '-' }

  /** The sequence number an id contributes: only an id that splits on `-` into
      exactly three parts, whatever they are, and then `parseInt` of the third
      part; `None` when the id does not contribute (`NaN` included). */
  function SequenceOf(id: string): Option<int> {
    var parts := Split(id, IsDash);
    if |parts| == 3 then ParseInt(parts[2]) else None
  }

  /** One step of the scan: a larger parsed sequence replaces the maximum. */
  function ScanStep(maxSequence: int, inv: Invoice): int {
    match SequenceOf(inv.id)
    case Some(q) => if q > maxSequence then q else maxSequence
    case None => maxSequence
  }

  /** The maximum sequence over a listing, in listing order, starting from 0. */
  function MaxSequence(invoices: seq<Invoice>): int {
    if invoices == [] then 0
    else ScanStep(MaxSequence(invoices[..|invoices| - 1]), invoices[|invoices| - 1])
  }

  /** `String(n)` for an integer. */
  function IntToString(n: int): string {
    if n < 0 then "-" + NatToString(-n) else NatToString(n)
  }

  /** `INV-<year>-<n padded with zeros to three characters>`. */
  function FormatId(year: nat, n: int): string {
    "INV-" + NatToString(year) + "-" + PadStart(IntToString(n), 3, '0')
  }

  /** `getNextInvoiceId` on the listing `getInvoices` returned, for the year the
      clock reads: one past the largest sequence found, with no year filter. */
  method NextInvoiceId(invoices: seq<Invoice>, year: nat) returns (id: string)
    ensures id == FormatId(year, MaxSequence(invoices) + 1)
    ensures MaxSequence(invoices) >= 0
    ensures forall k, q :: 0 <= k < |invoices| && SequenceOf(invoices[k].id) == Some(q) ==> q < MaxSequence(invoices) + 1
  {
    var maxSequence := 0;
    var i := 0;
    while i < |invoices|
      invariant 0 <= i <= |invoices|
      invariant maxSequence == MaxSequence(invoices[..i])
    {
      var parts := Split(invoices[i].id, IsDash);
      if |parts| == 3 {
        var sequence := ParseInt(parts[2]);
        if sequence.Some? && sequence.value > maxSequence {
          maxSequence := sequence.value;
        }
      }
      assert invoices[..i + 1][..i] == invoices[..i];
      i := i + 1;
    }
    assert invoices[..i] == invoices;
    MaxSequenceBounds(invoices);
    id := "INV-" + NatToString(year) + "-" + PadStart(IntToString(maxSequence + 1), 3, '0');
  }

  /** The maximum is at least 0 and at least every sequence that was parsed. */
  lemma {:induction false} MaxSequenceBounds(invoices: seq<Invoice>)
    ensures MaxSequence(invoices) >= 0
    ensures forall k, q :: 0 <= k < |invoices| && SequenceOf(invoices[k].id) == Some(q) ==> q <= MaxSequence(invoices)
  {
    if invoices != [] {
      var init := invoices[..|invoices| - 1];
      MaxSequenceBounds(init);
      forall k, q | 0 <= k < |invoices| && SequenceOf(invoices[k].id) == Some(q)
        ensures q <= MaxSequence(invoices)
      {
        if k < |invoices| - 1 { assert invoices[k] == init[k]; }
      }
    }
  }

  /** The maximum is 0 or the sequence of some id in the listing. */
  lemma {:induction false} MaxSequenceAttained(invoices: seq<Invoice>)
    ensures MaxSequence(invoices) == 0
      || exists k :: 0 <= k < |invoices| && SequenceOf(invoices[k].id) == Some(MaxSequence(invoices))
  {
    if invoices != [] {
      var init := invoices[..|invoices| - 1];
      MaxSequenceAttained(init);
      if MaxSequence(invoices) != MaxSequence(init) {
        assert SequenceOf(invoices[|invoices| - 1].id) == Some(MaxSequence(invoices));
      } else if MaxSequence(init) != 0 {
        var k :| 0 <= k < |init| && SequenceOf(init[k].id) == Some(MaxSequence(init));
        assert invoices[k] == init[k];
      }
    }
  }

  /** Ids that do not contribute leave the maximum as it was. */
  lemma {:induction false} MaxSequenceIgnores(invoices: seq<Invoice>, other: Invoice)
    requires SequenceOf(other.id).None?
    ensures MaxSequence(invoices + [other]) == MaxSequence(invoices)
  {
    assert (invoices + [other])[..|invoices|] == invoices;
  }

  // ---- the generated number reads back --------------------------------------------

  lemma {:induction false} SplitNoSeparator(s: string, isSep: char -> bool)
    requires forall i :: 0 <= i < |s| ==> !isSep(s[i])
    ensures Split(s, isSep) == [s]
  {
    if s != [] {
      SplitNoSeparator(s[1..], isSep);
      assert [s[0]] + s[1..] == s;
    }
  }

  lemma {:induction false} SplitAtSeparator(a: string, c: char, b: string, isSep: char -> bool)
    requires forall i :: 0 <= i < |a| ==> !isSep(a[i])
    requires isSep(c)
    ensures Split(a + [c] + b, isSep) == [a] + Split(b, isSep)
  {
    if a == [] {
      assert a + [c] + b == [c] + b;
      assert ([c] + b)[1..] == b;
    } else {
      SplitAtSeparator(a[1..], c, b, isSep);
      var s := a + [c] + b;
      assert s[0] == a[0] && s[1..] == a[1..] + [c] + b;
      assert [a[0]] + a[1..] == a;
    }
  }

  /** Three parts without a dash, joined by dashes, split back into those parts. */
  lemma SplitThree(a: string, b: string, c: string)
    requires forall i :: 0 <= i < |a| ==> !IsDash(a[i])
    requires forall i :: 0 <= i < |b| ==> !IsDash(b[i])
    requires forall i :: 0 <= i < |c| ==> !IsDash(c[i])
    ensures Split(a + "-" + b + "-" + c, IsDash) == [a, b, c]
  {
    SplitNoSeparator(c, IsDash);
    SplitAtSeparator(b, '-', c, IsDash);
    SplitAtSeparator(a, '-', b + "-" + c, IsDash);
    assert a + "-" + b + "-" + c == a + ['-'] + (b + ['-'] + c);
  }

  lemma DigitsHaveNoDash(s: string)
    requires AllDigits(s)
    ensures forall i :: 0 <= i < |s| ==> !IsDash(s[i])
  {
  }

  /** A zero-padded digit string: digits, with the value of what was padded. */
  lemma PadDigits(s: string)
    requires AllDigits(s)
    ensures AllDigits(PadStart(s, 3, '0'))
    ensures DigitsValue(PadStart(s, 3, '0')) == DigitsValue(s)
  {
    if |s| < 3 { LeadingZerosValue(3 - |s|, s); }
  }

  /** Splitting a generated id gives `INV`, the year and the padded number. */
  lemma FormatIdParts(year: nat, n: nat)
    ensures Split(FormatId(year, n), IsDash) == ["INV", NatToString(year), PadStart(NatToString(n), 3, '0')]
  {
    var p := PadStart(NatToString(n), 3, '0');
    PadDigits(NatToString(n));
    DigitsHaveNoDash(NatToString(year));
    DigitsHaveNoDash(p);
    SplitThree("INV", NatToString(year), p);
    assert IntToString(n) == NatToString(n);
    assert FormatId(year, n) == "INV" + "-" + NatToString(year) + "-" + p;
  }

  /** Round trip: the number a generated id carries is the number it was made from. */
  lemma SequenceOfFormatId(year: nat, n: nat)
    ensures SequenceOf(FormatId(year, n)) == Some(n)
  {
    FormatIdParts(year, n);
    var p := PadStart(NatToString(n), 3, '0');
    assert IntToString(n) == NatToString(n);
    PadDigits(NatToString(n));
    ParseIntDigits(p, []);
    assert p + [] == p;
  }

  /** The generated id carries the next number, and that number is larger than
      every number found in the listing, so it is unused there. */
  lemma NextIdIsFresh(invoices: seq<Invoice>, year: nat)
    ensures MaxSequence(invoices) >= 0
    ensures SequenceOf(FormatId(year, MaxSequence(invoices) + 1)) == Some(MaxSequence(invoices) + 1)
    ensures forall k :: 0 <= k < |invoices| ==> invoices[k].id != FormatId(year, MaxSequence(invoices) + 1)
  {
    MaxSequenceBounds(invoices);
    SequenceOfFormatId(year, MaxSequence(invoices) + 1);
  }

  lemma {:induction false} NatToStringLong(n: nat)
    requires n >= 100
    ensures |NatToString(n)| >= 3
  {
    var q := n / 10;
    assert q >= 10;
    assert |NatToString(n)| == |NatToString(q)| + 1;
    assert |NatToString(q)| >= 2;
  }

  /** Padding never truncates: a number of three or more digits is printed whole. */
  lemma PadNeverTruncates(year: nat, n: nat)
    requires n >= 100
    ensures FormatId(year, n) == "INV-" + NatToString(year) + "-" + NatToString(n)
  {
    NatToStringLong(n);
  }

  lemma FormatOneThousand()
    ensures FormatId(2024, 1000) == "INV-2024-1000"
  {
    PadNeverTruncates(2024, 1000);
  }

  // ---- the documented examples ---------------------------------------------

  function Example(id: string): Invoice {
    Invoice(id, Customer("c", "", "", ""), "", "", [], Draft, None)
  }

  lemma SequenceOfExample(year: nat, digits: string)
    requires |digits| == 3 && AllDigits(digits)
    ensures SequenceOf("INV-" + NatToString(year) + "-" + digits) == Some(DigitsValue(digits))
  {
    DigitsHaveNoDash(NatToString(year));
    DigitsHaveNoDash(digits);
    var id := "INV-" + NatToString(year) + "-" + digits;
    assert id == "INV" + "-" + NatToString(year) + "-" + digits;
    SplitThree("INV", NatToString(year), digits);
    ParseIntDigits(digits, []);
    assert digits + [] == digits;
    assert ParseInt(Split(id, IsDash)[2]) == Some(DigitsValue(digits));
  }

  lemma YearDigits()
    ensures NatToString(2023) == "2023" && NatToString(2024) == "2024"
  {
    assert NatToString(2) == "2";
    assert NatToString(20) == "20";
    assert NatToString(202) == "202";
  }

  lemma SmallDigits()
    ensures DigitsValue("007") == 7 && DigitsValue("001") == 1 && DigitsValue("003") == 3
    ensures NatToString(8) == "8" && NatToString(4) == "4"
  {
    assert "007"[..2] == "00" && "00"[..1] == "0" && "0"[..0] == "";
    assert "001"[..2] == "00" && "003"[..2] == "00";
  }

  lemma ExampleSequence(year: nat, digits: string, id: string)
    requires year == 2023 || year == 2024
    requires digits == "007" || digits == "001" || digits == "003"
    requires id == "INV-" + NatToString(year) + "-" + digits
    ensures SequenceOf(id) == Some(DigitsValue(digits))
  {
    SequenceOfExample(year, digits);
  }

  lemma FormatSmall(n: nat)
    requires 1 <= n <= 9
    ensures FormatId(2024, n) == "INV-2024-00" + [DigitChar(n)]
  {
    YearDigits();
    assert IntToString(n) == NatToString(n) == [DigitChar(n)];
  }

  /** No year filter: `INV-2023-007` in 2024 gives `INV-2024-008`. */
  lemma NoYearFilter()
    ensures MaxSequence([Example("INV-2023-007")]) + 1 == 8
    ensures FormatId(2024, 8) == "INV-2024-008"
  {
    YearDigits();
    SmallDigits();
    ExampleSequence(2023, "007", "INV-2023-007");
    var s := [Example("INV-2023-007")];
    assert s[..0] == [];
    assert MaxSequence(s) == ScanStep(0, s[0]);
    FormatSmall(8);
  }

  lemma MaxOfTwo(a: Invoice, b: Invoice, p: int, q: int)
    requires SequenceOf(a.id) == Some(p) && SequenceOf(b.id) == Some(q) && 0 <= p <= q
    ensures MaxSequence([a, b]) == q
  {
    var s := [a, b];
    assert s[..1] == [a] && [a][..0] == [];
    assert MaxSequence([a]) == p;
  }

  lemma FirstSequence()
    ensures SequenceOf("INV-2024-001") == Some(1)
  {
    YearDigits();
    SmallDigits();
    ExampleSequence(2024, "001", "INV-2024-001");
  }

  lemma ThirdSequence()
    ensures SequenceOf("INV-2024-003") == Some(3)
  {
    YearDigits();
    SmallDigits();
    ExampleSequence(2024, "003", "INV-2024-003");
  }

  /** Maximum plus one, not count plus one: 001 and 003 give 004. */
  lemma MaxNotCount()
    ensures MaxSequence([Example("INV-2024-001"), Example("INV-2024-003")]) + 1 == 4
    ensures FormatId(2024, 4) == "INV-2024-004"
  {
    FirstSequence();
    ThirdSequence();
    MaxOfTwo(Example("INV-2024-001"), Example("INV-2024-003"), 1, 3);
    FormatFour();
  }

  lemma FormatFour()
    ensures FormatId(2024, 4) == "INV-2024-004"
  {
    FormatSmall(4);
  }

  /** An empty listing, which is what every failed fetch yields, gives `-001`
      in whatever year the clock reads. */
  lemma FailureGivesFirstNumber(outcome: FetchOutcome<seq<Invoice>>, year: nat)
    requires !outcome.Ok?
    ensures FormatId(year, MaxSequence(GetInvoices(outcome)) + 1) == "INV-" + NatToString(year) + "-001"
  {
    assert NatToString(1) == "1" && IntToString(1) == "1";
  }
}
