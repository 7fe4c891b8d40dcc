/** The invoice list of components/BillingPage.tsx: search, status filter,
    column sort with its toggle rule, and the two summary cards. */
module BillingPage {
  import opened Text
  import opened Domain
  import opened Amounts
  import opened Sorting

  datatype SortKey = ById | ByCustomer | ByIssueDate | ByDueDate | ByAmount | ByStatus
  datatype Direction = Ascending | Descending
  datatype SortConfig = SortConfig(key: SortKey, direction: Direction)

  /** The status filter: `'All'` or one status. */
  datatype StatusFilter = All | Only(status: InvoiceStatus)

  /** `requestSort(key)`: the same column while ascending turns descending;
      anything else sorts that column ascending. */
  function RequestSort(current: SortConfig, key: SortKey): (r: SortConfig)
    ensures r.key == key
    ensures r.direction == Descending <==> current == SortConfig(key, Ascending)
  {
    if current.key == key && current.direction == Ascending then SortConfig(key, Descending)
    else SortConfig(key, Ascending)
  }

  /** Clicking the same column cycles ascending, descending, ascending. */
  lemma RequestSortCycles(current: SortConfig, key: SortKey)
    ensures var once := RequestSort(current, key);
      var twice := RequestSort(once, key);
      RequestSort(twice, key) == once
      && (once.direction == Ascending ==> twice == SortConfig(key, Descending))
  {
  }

  // ---- search and filter -------------------------------------------------------

  /** The search box: an empty query keeps everything, otherwise the lower-cased
      query must occur in the lower-cased id or customer name. */
  predicate MatchesSearch(inv: Invoice, query: string) {
    query == ""
    || Includes(ToLower(inv.id), ToLower(query))
    || Includes(ToLower(inv.customer.name), ToLower(query))
  }

  predicate MatchesStatus(inv: Invoice, filter: StatusFilter) {
    filter.All? || inv.status == filter.status
  }

  /** An empty query would keep everything even without its own test, since
      the empty string occurs in every string. */
  lemma EmptyQueryMatchesAll(inv: Invoice)
    ensures Includes(ToLower(inv.id), ToLower(""))
  {
    assert OccursAt(ToLower(inv.id), ToLower(""), 0);
  }

  // ---- the sort comparator -----------------------------------------------------------

  /** The text compared for a string column; dates are ISO `YYYY-MM-DD` text,
      whose string order is their calendar order. */
  function KeyText(key: SortKey, inv: Invoice): string
    requires key != ByAmount
  {
    match key
    case ById => inv.id
    case ByCustomer => inv.customer.name
    case ByIssueDate => inv.issueDate
    case ByDueDate => inv.dueDate
    case ByStatus => StatusName(inv.status)
  }

  /** `aValue < bValue` for the chosen column. */
  predicate KeyLess(key: SortKey, a: Invoice, b: Invoice) {
    if key == ByAmount then ListCalculateTotal(a.items) < ListCalculateTotal(b.items)
    else StrLess(KeyText(key, a), KeyText(key, b))
  }

  /** The comparator passed to `sort`. */
  function Compare(cfg: SortConfig, a: Invoice, b: Invoice): int {
    if KeyLess(cfg.key, a, b) then (if cfg.direction == Ascending then -1 else 1)
    else if KeyLess(cfg.key, b, a) then (if cfg.direction == Ascending then 1 else -1)
    else 0
  }

  /** "a may stay before b" under the comparator. */
  function InOrder(cfg: SortConfig): (Invoice, Invoice) -> bool {
    (a: Invoice, b: Invoice) => Compare(cfg, a, b) <= 0
  }

  lemma KeyLessAsymmetric(key: SortKey, a: Invoice, b: Invoice)
    ensures !(KeyLess(key, a, b) && KeyLess(key, b, a))
  {
    if key != ByAmount && KeyLess(key, a, b) && KeyLess(key, b, a) {
      StrLessTransitive(KeyText(key, a), KeyText(key, b), KeyText(key, a));
      StrLessIrreflexive(KeyText(key, a));
    }
  }

  /** If c comes before a, then b cannot sit between them unordered. */
  lemma KeyLessComparable(key: SortKey, a: Invoice, b: Invoice, c: Invoice)
    requires KeyLess(key, c, a)
    ensures KeyLess(key, c, b) || KeyLess(key, b, a)
  {
    if key != ByAmount {
      var x, y, z := KeyText(key, a), KeyText(key, b), KeyText(key, c);
      StrLessTotal(x, y);
      if StrLess(x, y) { StrLessTransitive(z, x, y); }
    }
  }

  /** The comparator is consistent, so `sort` orders by it. */
  lemma {:induction false} CompareIsTotalPreorder(cfg: SortConfig)
    ensures TotalPreorder(InOrder(cfg))
  {
    var le := InOrder(cfg);
    forall a, b ensures le(a, b) || le(b, a) {
      KeyLessAsymmetric(cfg.key, a, b);
      assert le(a, b) == (Compare(cfg, a, b) <= 0) && le(b, a) == (Compare(cfg, b, a) <= 0);
    }
    forall a, b, c | le(a, b) && le(b, c) ensures le(a, c) {
      assert Compare(cfg, a, b) <= 0 && Compare(cfg, b, c) <= 0;
      KeyLessAsymmetric(cfg.key, a, b);
      KeyLessAsymmetric(cfg.key, b, c);
      KeyLessAsymmetric(cfg.key, a, c);
      if cfg.direction == Ascending {
        if KeyLess(cfg.key, c, a) { KeyLessComparable(cfg.key, a, b, c); }
      } else {
        if KeyLess(cfg.key, a, c) { KeyLessComparable(cfg.key, c, b, a); }
      }
    }
  }

  /** What "in order" means for the column: ascending never puts a smaller key
      after a larger one, descending never a larger after a smaller. */
  predicate OrderedBy(cfg: SortConfig, r: seq<Invoice>) {
    forall i, j :: 0 <= i < j < |r| ==>
      if cfg.direction == Ascending then !KeyLess(cfg.key, r[j], r[i]) else !KeyLess(cfg.key, r[i], r[j])
  }

  lemma SortedIsOrdered(cfg: SortConfig, r: seq<Invoice>)
    requires SortedBy(r, InOrder(cfg))
    ensures OrderedBy(cfg, r)
  {
    forall i, j | 0 <= i < j < |r|
      ensures if cfg.direction == Ascending then !KeyLess(cfg.key, r[j], r[i]) else !KeyLess(cfg.key, r[i], r[j])
    {
      assert InOrder(cfg)(r[i], r[j]);
      assert Compare(cfg, r[i], r[j]) <= 0;
      KeyLessAsymmetric(cfg.key, r[i], r[j]);
    }
  }

  // ---- the page -------------------------------------------------------------------

  /** Whether an invoice is listed under the current search and filter. */
  predicate Visible(inv: Invoice, query: string, filter: StatusFilter) {
    MatchesSearch(inv, query) && MatchesStatus(inv, filter)
  }

  function VisibleUnder(query: string, filter: StatusFilter): Invoice -> bool {
    (inv: Invoice) => Visible(inv, query, filter)
  }

  class InvoiceList {
    var invoices: seq<Invoice>
    var filter: StatusFilter
    var searchQuery: string
    var sortConfig: SortConfig

    /** The initial page: no invoices yet, every status, no search, newest issue date first. */
    constructor ()
      ensures invoices == [] && filter == All && searchQuery == ""
      ensures sortConfig == SortConfig(ByIssueDate, Descending)
    {
      invoices := [];
      filter := All;
      searchQuery := "";
      sortConfig := SortConfig(ByIssueDate, Descending);
    }

    method SetInvoices(list: seq<Invoice>)
      modifies this
      ensures invoices == list
      ensures filter == old(filter) && searchQuery == old(searchQuery) && sortConfig == old(sortConfig)
    {
      invoices := list;
    }

    method SetSearchQuery(q: string)
      modifies this
      ensures searchQuery == q
      ensures invoices == old(invoices) && filter == old(filter) && sortConfig == old(sortConfig)
    {
      searchQuery := q;
    }

    method SetFilter(f: StatusFilter)
      modifies this
      ensures filter == f
      ensures invoices == old(invoices) && searchQuery == old(searchQuery) && sortConfig == old(sortConfig)
    {
      filter := f;
    }

    /** A click on a column header. */
    method RequestSortBy(key: SortKey)
      modifies this
      ensures sortConfig == RequestSort(old(sortConfig), key)
      ensures invoices == old(invoices) && filter == old(filter) && searchQuery == old(searchQuery)
    {
      sortConfig := RequestSort(sortConfig, key);
    }

    /** `processedInvoices`: exactly the visible invoices, each as often as in
        the listing, ordered by the chosen column and direction. */
    method ProcessedInvoices() returns (r: seq<Invoice>)
      ensures forall inv :: inv in r <==> inv in invoices && Visible(inv, searchQuery, filter)
      ensures multiset(r) == multiset(Filter(invoices, VisibleUnder(searchQuery, filter)))
      ensures OrderedBy(sortConfig, r)
    {
      var filtered := invoices;
      if searchQuery != "" {
        var q := searchQuery;
        filtered := Filter(filtered, (inv: Invoice) => MatchesSearch(inv, q));
      }
      if filter != All {
        var f := filter;
        filtered := Filter(filtered, (inv: Invoice) => MatchesStatus(inv, f));
      }
      FilterTwice(invoices, searchQuery, filter);
      r := Sort(filtered, InOrder(sortConfig));
      SortResult(invoices, searchQuery, filter, sortConfig, filtered, r);
    }
  }

  /** The sorted visible list: the same multiset, the visible invoices, in order. */
  lemma SortResult(invoices: seq<Invoice>, query: string, filter: StatusFilter, cfg: SortConfig,
                   filtered: seq<Invoice>, r: seq<Invoice>)
    requires filtered == Filter(invoices, VisibleUnder(query, filter))
    requires r == Sort(filtered, InOrder(cfg))
    ensures forall inv :: inv in r <==> inv in invoices && Visible(inv, query, filter)
    ensures multiset(r) == multiset(filtered)
    ensures OrderedBy(cfg, r)
  {
    CompareIsTotalPreorder(cfg);
    SortSorted(filtered, InOrder(cfg));
    SortedIsOrdered(cfg, r);
    forall inv ensures inv in r <==> inv in invoices && Visible(inv, query, filter) {
      FilterMembers(invoices, VisibleUnder(query, filter), inv);
      assert inv in r <==> inv in multiset(r);
      assert inv in filtered <==> inv in multiset(filtered);
    }
  }

  /** The two filters one after the other keep what the combined test keeps. */
  lemma {:induction false} FilterTwice(invoices: seq<Invoice>, query: string, filter: StatusFilter)
    ensures var afterSearch := if query != "" then Filter(invoices, (inv: Invoice) => MatchesSearch(inv, query)) else invoices;
      (if filter != All then Filter(afterSearch, (inv: Invoice) => MatchesStatus(inv, filter)) else afterSearch)
      == Filter(invoices, VisibleUnder(query, filter))
  {
    if invoices != [] {
      FilterTwice(invoices[1..], query, filter);
    }
  }

  // ---- summary cards ----------------------------------------------------------------

  /** `reduce((acc, i) => acc + calculateTotal(i), 0)` over a list of invoices. */
  function SumTotals(invoices: seq<Invoice>): real {
    if invoices == [] then 0.0 else SumTotals(invoices[..|invoices| - 1]) + ListCalculateTotal(invoices[|invoices| - 1].items)
  }

  predicate IsOutstanding(inv: Invoice) {
    inv.status == InvoiceStatus.Pending || inv.status == InvoiceStatus.Overdue
  }

  predicate IsOverdue(inv: Invoice) {
    inv.status == InvoiceStatus.Overdue
  }

  predicate IsPending(inv: Invoice) {
    inv.status == InvoiceStatus.Pending
  }

  /** The number and worth shown on a card. */
  datatype Card = Card(count: nat, worth: real)

  function CardOf(selected: seq<Invoice>): Card {
    Card(|selected|, SumTotals(selected))
  }

  /** Total Outstanding: the Pending and Overdue invoices. */
  function OutstandingCard(invoices: seq<Invoice>): Card {
    CardOf(Filter(invoices, IsOutstanding))
  }

  /** Overdue Invoices: only the Overdue ones. */
  function OverdueCard(invoices: seq<Invoice>): Card {
    CardOf(Filter(invoices, IsOverdue))
  }

  /** The outstanding card is the overdue card plus the pending invoices. */
  lemma OutstandingSplits(invoices: seq<Invoice>)
    ensures OutstandingCard(invoices).count
      == OverdueCard(invoices).count + |Filter(invoices, IsPending)|
    ensures OutstandingCard(invoices).worth
      == OverdueCard(invoices).worth + SumTotals(Filter(invoices, IsPending))
  {
    FilterPartition(invoices);
  }

  /** Outstanding is exactly Overdue or Pending, never both, so its count and
      worth split between the two. */
  lemma {:induction false} FilterPartition(s: seq<Invoice>)
    ensures |Filter(s, IsOutstanding)| == |Filter(s, IsOverdue)| + |Filter(s, IsPending)|
    ensures SumTotals(Filter(s, IsOutstanding)) == SumTotals(Filter(s, IsOverdue)) + SumTotals(Filter(s, IsPending))
  {
    if s != [] {
      var n := |s| - 1;
      var x, init := s[n], s[..n];
      FilterPartition(init);
      assert s == init + [x];
      FilterSnoc(init, x, IsOutstanding);
      FilterSnoc(init, x, IsOverdue);
      FilterSnoc(init, x, IsPending);
      var a, b, c := Filter(init, IsOutstanding), Filter(init, IsOverdue), Filter(init, IsPending);
      if IsOverdue(x) {
        assert Filter(s, IsOutstanding) == a + [x];
        assert Filter(s, IsOverdue) == b + [x];
        assert Filter(s, IsPending) == c + [];
        assert c + [] == c;
        SumStep(a, b, c, x, true);
      } else if IsPending(x) {
        assert Filter(s, IsOutstanding) == a + [x];
        assert Filter(s, IsOverdue) == b + [];
        assert Filter(s, IsPending) == c + [x];
        assert b + [] == b;
        SumStep(a, c, b, x, false);
      } else {
        assert Filter(s, IsOutstanding) == a + [];
        assert Filter(s, IsOverdue) == b + [];
        assert Filter(s, IsPending) == c + [];
        assert a + [] == a && b + [] == b && c + [] == c;
      }
    }
  }

  /** One more invoice joins the outstanding list and exactly one of the two
      lists it splits into. */
  lemma SumStep(a: seq<Invoice>, b: seq<Invoice>, c: seq<Invoice>, x: Invoice, first: bool)
    requires SumTotals(a) == SumTotals(b) + SumTotals(c)
    ensures first ==> SumTotals(a + [x]) == SumTotals(b + [x]) + SumTotals(c)
    ensures !first ==> SumTotals(a + [x]) == SumTotals(c) + SumTotals(b + [x])
  {
    SumSnoc(a, x);
    SumSnoc(b, x);
  }

  lemma SumSnoc(s: seq<Invoice>, x: Invoice)
    ensures SumTotals(s + [x]) == SumTotals(s) + ListCalculateTotal(x.items)
  {
    assert (s + [x])[..|s|] == s;
  }

  /** Filtering a list with one more element at the end. */
  lemma {:induction false} FilterSnoc(s: seq<Invoice>, x: Invoice, p: Invoice -> bool)
    ensures Filter(s + [x], p) == Filter(s, p) + (if p(x) then [x] else [])
  {
    if s == [] {
      assert [] + [x] == [x];
    } else {
      FilterSnoc(s[1..], x, p);
      assert (s + [x])[1..] == s[1..] + [x];
    }
  }
}
