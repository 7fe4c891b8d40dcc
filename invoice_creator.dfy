/** The invoice form of components/InvoiceCreator.tsx: a partly filled invoice,
    the customer list, and the handlers that change them. */
module InvoiceCreator {
  import opened Wrappers
  import opened Domain

  /** `Partial<Invoice>`: every field may still be missing. */
  datatype DraftInvoice = DraftInvoice(
    id: Option<string>,
    customer: Option<Customer>,
    issueDate: Option<string>,
    dueDate: Option<string>,
    items: Option<seq<InvoiceItem>>,
    status: Option<InvoiceStatus>,
    notes: Option<string>)

  /** The form of an existing invoice: every field present. */
  function FromInvoice(inv: Invoice): DraftInvoice {
    DraftInvoice(Some(inv.id), Some(inv.customer), Some(inv.issueDate), Some(inv.dueDate),
      Some(inv.items), Some(inv.status), inv.notes)
  }

  /** A new invoice: a Draft with one blank item and nothing else. */
  function NewDraft(): DraftInvoice {
    DraftInvoice(None, None, None, None, Some([InvoiceItem("1", "", 1.0, 0.0)]), Some(InvoiceStatus.Draft), None)
  }

  /** `!invoice?.id`: a number is fetched for a new invoice or one whose id is empty. */
  predicate NeedsNextId(invoice: Option<Invoice>) {
    invoice.None? || invoice.value.id == ""
  }

  /** A field set through `handleInputChange`. */
  datatype FieldValue = IssueDate(date: string) | DueDate(date: string) | Notes(text: string) | Items(list: seq<InvoiceItem>)

  /** Where generated text goes: nowhere yet, the notes, or the description of an item. */
  datatype AiTarget = NoTarget | NotesTarget | ItemTarget(index: int)

  /** `handleSave` accepts an invoice with an id, a customer and at least one item. */
  predicate Saveable(d: DraftInvoice) {
    d.id.Some? && d.id.value != "" && d.customer.Some? && d.items.Some? && |d.items.value| > 0
  }

  class Creator {
    var customers: seq<Customer>
    var draft: DraftInvoice
    var aiTarget: AiTarget
    /** Whether the mount effect's `getNextInvoiceId()` is still to answer. */
    var awaitingId: bool

    /** The initial state for `invoice` (absent when creating); the next
      number is requested exactly when the form opens without one. */
    constructor (invoice: Option<Invoice>)
      ensures customers == [] && aiTarget == NoTarget
      ensures invoice.Some? ==> draft == FromInvoice(invoice.value)
      ensures invoice.None? ==> draft == NewDraft()
      ensures awaitingId == NeedsNextId(invoice)
      ensures awaitingId <==> !(draft.id.Some? && draft.id.value != "")
    {
      customers := [];
      draft := if invoice.Some? then FromInvoice(invoice.value) else NewDraft();
      aiTarget := NoTarget;
      awaitingId := NeedsNextId(invoice);
    }

    /** The customer list arrives from `getCustomers`. */
    method CustomersLoaded(list: seq<Customer>)
      modifies this
      ensures customers == list && draft == old(draft) && aiTarget == old(aiTarget) && awaitingId == old(awaitingId)
    {
      customers := list;
    }

    /** The fetched next number is written into the id, nothing else; only
      the request made at mount answers, so an invoice that opened with its
      own number keeps it. */
    method NextIdLoaded(id: string)
      modifies this
      ensures old(awaitingId) ==> draft == old(draft).(id := Some(id))
      ensures !old(awaitingId) ==> draft == old(draft)
      ensures !awaitingId
      ensures customers == old(customers) && aiTarget == old(aiTarget)
    {
      if awaitingId {
        draft := draft.(id := Some(id));
        awaitingId := false;
      }
    }

    /** `handleInputChange(field, value)`: exactly that field is replaced. */
    method InputChange(v: FieldValue)
      modifies this
      ensures customers == old(customers) && aiTarget == old(aiTarget) && awaitingId == old(awaitingId)
      ensures draft == match v
        case IssueDate(x) => old(draft).(issueDate := Some(x))
        case DueDate(x) => old(draft).(dueDate := Some(x))
        case Notes(x) => old(draft).(notes := Some(x))
        case Items(x) => old(draft).(items := Some(x))
    {
      match v
      case IssueDate(x) => draft := draft.(issueDate := Some(x));
      case DueDate(x) => draft := draft.(dueDate := Some(x));
      case Notes(x) => draft := draft.(notes := Some(x));
      case Items(x) => draft := draft.(items := Some(x));
    }

    /** `handleCustomerChange`: the first customer with that id becomes the
        invoice's customer; an unknown id changes nothing. */
    method CustomerChange(customerId: string)
      modifies this
      ensures customers == old(customers) && aiTarget == old(aiTarget) && awaitingId == old(awaitingId)
      ensures (forall k :: 0 <= k < |customers| ==> customers[k].id != customerId) ==> draft == old(draft)
      ensures (exists k :: 0 <= k < |customers| && customers[k].id == customerId) ==>
        exists k :: 0 <= k < |customers| && customers[k].id == customerId
          && (forall j :: 0 <= j < k ==> customers[j].id != customerId)
          && draft == old(draft).(customer := Some(customers[k]))
    {
      var i := 0;
      while i < |customers| && customers[i].id != customerId
        invariant 0 <= i <= |customers|
        invariant forall j :: 0 <= j < i ==> customers[j].id != customerId
      {
        i := i + 1;
      }
      if i < |customers| {
        draft := draft.(customer := Some(customers[i]));
      }
    }

    /** `handleNewCustomerAdded`: appended to the list and chosen for the invoice. */
    method NewCustomerAdded(c: Customer)
      modifies this
      ensures customers == old(customers) + [c]
      ensures draft == old(draft).(customer := Some(c)) && aiTarget == old(aiTarget) && awaitingId == old(awaitingId)
    {
      customers := customers + [c];
      draft := draft.(customer := Some(c));
    }

    /** `handleSave(status)`: the invoice handed to `onSave`, or none when the
        check fails (the user is alerted). The dates are not checked; a missing
        one is sent as the empty string. */
    method Save(status: InvoiceStatus) returns (saved: Option<Invoice>)
      requires status == InvoiceStatus.Draft || status == InvoiceStatus.Pending
      ensures saved.Some? <==> Saveable(draft)
      ensures saved.Some? ==> (saved.value.status == status
        && Some(saved.value.id) == draft.id && Some(saved.value.customer) == draft.customer
        && Some(saved.value.items) == draft.items && saved.value.notes == draft.notes
        && (draft.issueDate.Some? ==> saved.value.issueDate == draft.issueDate.value)
        && (draft.dueDate.Some? ==> saved.value.dueDate == draft.dueDate.value))
    {
      if Saveable(draft) {
        saved := Some(Invoice(draft.id.value, draft.customer.value, draft.issueDate.GetOr(""),
          draft.dueDate.GetOr(""), draft.items.value, status, draft.notes));
      } else {
        saved := None;
      }
    }

    /** `handleAIAssist(target)`: remembers where the text will go. */
    method AiAssist(target: AiTarget)
      modifies this
      ensures aiTarget == target && draft == old(draft) && customers == old(customers)
      ensures awaitingId == old(awaitingId)
    {
      aiTarget := target;
    }

    /** `onGeneratedText(text)`: appended to the notes, or written over the
        description of the target item. Writing to an item that does not exist
        throws (`ok` false) and changes nothing. */
    method GeneratedText(text: string) returns (ok: bool)
      modifies this
      ensures customers == old(customers) && aiTarget == old(aiTarget) && awaitingId == old(awaitingId)
      ensures old(aiTarget).NotesTarget? ==> ok && draft == old(draft).(notes := Some(old(draft).notes.GetOr("") + text))
      ensures old(aiTarget).NoTarget? ==> ok && draft == old(draft)
      ensures old(aiTarget).ItemTarget? ==>
        var items := old(draft).items.GetOr([]);
        var i := old(aiTarget).index;
        (ok <==> 0 <= i < |items|)
        && (ok ==> draft == old(draft).(items := Some(items[i := items[i].(description := text)])))
        && (!ok ==> draft == old(draft))
    {
      ok := true;
      match aiTarget
      case NotesTarget =>
        draft := draft.(notes := Some(draft.notes.GetOr("") + text));
      case ItemTarget(i) =>
        var newItems := draft.items.GetOr([]);
        if 0 <= i < |newItems| {
          newItems := newItems[i := newItems[i].(description := text)];
          draft := draft.(items := Some(newItems));
        } else {
          ok := false;
        }
      case NoTarget =>
    }
  }

  /** An existing invoice with a number and at least one item passes the save check. */
  lemma SaveExistingInvoice(inv: Invoice)
    requires inv.id != "" && |inv.items| > 0
    ensures Saveable(FromInvoice(inv))
  {
  }

  /** A new form cannot be saved before a number and a customer are set. */
  lemma NewDraftNotSaveable()
    ensures !Saveable(NewDraft())
    ensures NewDraft().items == Some([InvoiceItem("1", "", 1.0, 0.0)]) && NewDraft().status == Some(InvoiceStatus.Draft)
  {
  }
}
