/** `GET /api/invoices` and `POST /api/invoices` (app/api/invoices/route.ts). */
module InvoicesRoute {
  import opened Wrappers
  import opened Js
  import opened Sorting
  import opened Store

  /** An invoice row with its customer attached (`include: { customer: true }`). */
  datatype InvoiceView = InvoiceView(invoice: InvoiceRow, customer: Option<CustomerRow>)

  /** `orderBy: { createdAt: 'desc' }`: a row may stay before any row not newer than it. */
  function NewestFirst(): (InvoiceRow, InvoiceRow) -> bool {
    (a: InvoiceRow, b: InvoiceRow) => a.createdAt >= b.createdAt
  }

  function OwnedBy(uid: string): InvoiceRow -> bool {
    (r: InvoiceRow) => r.userId == uid
  }

  /** `findMany({ where: { userId }, orderBy: { createdAt: 'desc' } })`. */
  function UserInvoices(rows: seq<InvoiceRow>, uid: string): seq<InvoiceRow> {
    Sort(Filter(rows, OwnedBy(uid)), NewestFirst())
  }

  /** The customer row an invoice refers to, if any. */
  function FindCustomer(customers: seq<CustomerRow>, customerId: Value): (r: Option<CustomerRow>)
    ensures r.Some? ==> r.value in customers && customerId == Str(r.value.id)
    ensures r.None? ==> forall c :: c in customers ==> customerId != Str(c.id)
  {
    if customers == [] then None
    else if customerId == Str(customers[0].id) then Some(customers[0])
    else FindCustomer(customers[1..], customerId)
  }

  function Attach(rows: seq<InvoiceRow>, customers: seq<CustomerRow>): (r: seq<InvoiceView>)
    ensures |r| == |rows|
    ensures forall i :: 0 <= i < |r| ==> r[i].invoice == rows[i]
  {
    seq(|rows|, i requires 0 <= i < |rows| => InvoiceView(rows[i], FindCustomer(customers, rows[i].customerId)))
  }

  lemma NewestFirstIsTotalPreorder()
    ensures TotalPreorder(NewestFirst())
  {
  }

  /** The rows the listing returns are exactly the caller's rows, each as
      often as it is stored, newest first. */
  lemma UserInvoicesSpec(rows: seq<InvoiceRow>, uid: string)
    ensures multiset(UserInvoices(rows, uid)) == multiset(Filter(rows, OwnedBy(uid)))
    ensures forall r :: r in UserInvoices(rows, uid) <==> r in rows && r.userId == uid
    ensures forall i, j :: 0 <= i < j < |UserInvoices(rows, uid)| ==>
      UserInvoices(rows, uid)[i].createdAt >= UserInvoices(rows, uid)[j].createdAt
  {
    var own := Filter(rows, OwnedBy(uid));
    var r := UserInvoices(rows, uid);
    NewestFirstIsTotalPreorder();
    SortSorted(own, NewestFirst());
    forall x
      ensures x in r <==> x in rows && x.userId == uid
    {
      FilterMembers(rows, OwnedBy(uid), x);
      assert x in r <==> x in multiset(r);
      assert x in own <==> x in multiset(own);
    }
    forall i, j | 0 <= i < j < |r|
      ensures r[i].createdAt >= r[j].createdAt
    {
      assert NewestFirst()(r[i], r[j]);
    }
  }

  /** A created row appears in its owner's listing and in no one else's. */
  lemma CreatedRowListed(rows: seq<InvoiceRow>, row: InvoiceRow, uid: string)
    ensures row in UserInvoices(rows + [row], uid) <==> row.userId == uid
    ensures row.userId != uid ==> UserInvoices(rows + [row], uid) == UserInvoices(rows, uid)
  {
    UserInvoicesSpec(rows + [row], uid);
    FilterAppend(rows, [row], OwnedBy(uid));
    if row.userId != uid {
      assert Filter([row], OwnedBy(uid)) == [];
      assert Filter(rows, OwnedBy(uid)) + [] == Filter(rows, OwnedBy(uid));
    }
  }

  /** `GET`: 401 without a session, otherwise the caller's invoices newest
      first with their customers; a store error gives 500. */
  method HandleGet(db: Database, userId: Option<string>, storeFails: bool) returns (resp: Response<seq<InvoiceView>>)
    ensures !SignedIn(userId) ==> resp == Status(401, "Unauthorized")
    ensures SignedIn(userId) && storeFails ==> resp == Status(500, "Internal Error")
    ensures resp.Json? <==> SignedIn(userId) && !storeFails
    ensures resp.Json? ==> resp.body == Attach(UserInvoices(db.invoices, userId.value), db.customers)
    ensures resp.Json? ==> forall i :: 0 <= i < |resp.body| ==>
      resp.body[i].customer == FindCustomer(db.customers, resp.body[i].invoice.customerId)
    ensures resp.Json? ==> |resp.body| == |Filter(db.invoices, OwnedBy(userId.value))|
    ensures resp.Json? ==> forall i :: 0 <= i < |resp.body| ==>
      resp.body[i].invoice in db.invoices && resp.body[i].invoice.userId == userId.value
    ensures resp.Json? ==> forall i, j :: 0 <= i < j < |resp.body| ==>
      resp.body[i].invoice.createdAt >= resp.body[j].invoice.createdAt
  {
    if !SignedIn(userId) {
      return Status(401, "Unauthorized");
    }
    if storeFails {
      return Status(500, "Internal Error");
    }
    var rows := UserInvoices(db.invoices, userId.value);
    UserInvoicesSpec(db.invoices, userId.value);
    resp := Json(Attach(rows, db.customers));
    assert forall i :: 0 <= i < |rows| ==> rows[i] in rows;
  }

  /** `items.map(item => ({ description, quantity, rate: Number(rate) }))`:
      `None` when `items` is not an array or one of its elements is
      `null`/`undefined` (a `TypeError`). */
  function CreateItems(items: Value): (r: Option<seq<ItemRow>>)
    ensures r.Some? <==> items.Arr? && forall i :: 0 <= i < |items.elems| ==> !items.elems[i].Undefined? && !items.elems[i].Null?
    ensures r.Some? ==> |r.value| == |items.elems|
  {
    if !items.Arr? then None else ItemRows(items.elems)
  }

  function ItemRows(elems: seq<Value>): (r: Option<seq<ItemRow>>)
    ensures r.Some? <==> forall i :: 0 <= i < |elems| ==> !elems[i].Undefined? && !elems[i].Null?
    ensures r.Some? ==> |r.value| == |elems|
  {
    if elems == [] then Some([])
    else match (Get(elems[0], "description"), Get(elems[0], "quantity"), Get(elems[0], "rate"), ItemRows(elems[1..]))
      case (Some(d), Some(q), Some(rate), Some(rest)) => Some([ItemRow(d, q, ToNumber(rate))] + rest)
      case _ => None
  }

  /** Each stored item keeps its input's description and quantity, and its
      rate is the input's rate through `Number`. */
  lemma {:induction false} ItemRowsFields(elems: seq<Value>)
    requires ItemRows(elems).Some?
    ensures forall i :: 0 <= i < |elems| ==>
      && Some(ItemRows(elems).value[i].description) == Get(elems[i], "description")
      && Some(ItemRows(elems).value[i].quantity) == Get(elems[i], "quantity")
      && Some(ItemRows(elems).value[i].rate) == Some(ToNumber(Get(elems[i], "rate").value))
  {
    if elems != [] {
      ItemRowsFields(elems[1..]);
    }
  }

  /** The body the route can create an invoice from. */
  predicate BodyUsable(body: Option<Value>) {
    && body.Some? && !body.value.Undefined? && !body.value.Null?
    && CreateItems(Get(body.value, "items").value).Some?
  }

  /** The row `POST` creates from a usable body: every column from the body
      except `userId`, which comes from the session. */
  function NewRow(b: Value, uid: string, now: nat): InvoiceRow
    requires !b.Undefined? && !b.Null? && CreateItems(Get(b, "items").value).Some?
  {
    InvoiceRow(Get(b, "id").value, uid, Get(b, "customerId").value, Get(b, "issueDate").value,
      Get(b, "dueDate").value, Get(b, "status").value, Get(b, "notes").value,
      CreateItems(Get(b, "items").value).value, now)
  }

  /** `POST`: 401 without a session before the body is read; otherwise one
      new row, owned by the caller, with one item per input item. Anything
      that throws (an unreadable body, a missing `items` array, a store
      error) gives 500 and changes nothing. */
  method HandlePost(db: Database, userId: Option<string>, body: Option<Value>, storeFails: bool, now: nat)
    returns (resp: Response<InvoiceView>)
    modifies db`invoices
    ensures !SignedIn(userId) ==> resp == Status(401, "Unauthorized")
    ensures resp.Json? <==> SignedIn(userId) && BodyUsable(body) && !storeFails
    ensures resp.Status? && SignedIn(userId) ==> resp == Status(500, "Internal Error")
    ensures resp.Json? ==>
      && resp.body.invoice == NewRow(body.value, userId.value, now)
      && db.invoices == old(db.invoices) + [resp.body.invoice]
    ensures resp.Status? ==> db.invoices == old(db.invoices)
  {
    if !SignedIn(userId) {
      return Status(401, "Unauthorized");
    }
    if body.None? || body.value.Undefined? || body.value.Null? {
      return Status(500, "Internal Error");
    }
    var b := body.value;
    var items := CreateItems(Get(b, "items").value);
    if items.None? {
      return Status(500, "Internal Error");
    }
    if storeFails {
      return Status(500, "Internal Error");
    }
    var row := NewRow(b, userId.value, now);
    db.invoices := db.invoices + [row];
    resp := Json(InvoiceView(row, FindCustomer(db.customers, row.customerId)));
  }

  /** The session owns the new row whatever the body says about `userId`. */
  lemma OwnerFromSession(b: Value, uid: string, now: nat, claimed: Value)
    requires b.Obj? && CreateItems(Get(b, "items").value).Some?
    ensures var b' := Obj(b.fields["userId" := claimed]);
      NewRow(b', uid, now).userId == uid && NewRow(b, uid, now).userId == uid
  {
    assert Get(Obj(b.fields["userId" := claimed]), "items") == Get(b, "items");
  }

  /** An empty item list is accepted: the route has no validation. */
  lemma EmptyItemsAccepted(b: Value)
    requires b.Obj? && "items" in b.fields && b.fields["items"] == Arr([])
    ensures BodyUsable(Some(b))
  {
  }
}
