/** The server's per-user tables and the shape of a route's answer. The
    database client itself is not part of this model: a table is a field of
    `Database`, a query is a function over it, and a store error is a
    parameter of the route that meets it. */
module Store {
  import opened Wrappers
  import opened Text
  import opened Js

  /** `NextResponse.json(body)` or `new NextResponse(message, { status })`. */
  datatype Response<T> = Json(body: T) | Status(code: nat, message: string)

  /** `if (!userId)`: no session, or an empty id. */
  predicate SignedIn(userId: Option<string>) {
    userId.Some? && userId.value != ""
  }

  datatype CustomerRow = CustomerRow(id: string, userId: string, name: string, email: string, address: string)

  /** An invoice line as stored: the client's item id is not kept. */
  datatype ItemRow = ItemRow(description: Value, quantity: Value, rate: Value)

  /** An invoice as stored. Every column the route copies from the request
      body keeps the body's value as it came. */
  datatype InvoiceRow = InvoiceRow(
    id: Value,
    userId: string,
    customerId: Value,
    issueDate: Value,
    dueDate: Value,
    status: Value,
    notes: Value,
    items: seq<ItemRow>,
    createdAt: nat)

  /** The columns of a business profile other than its owner. */
  datatype ProfileFields = ProfileFields(
    businessName: Value,
    email: Value,
    address: Value,
    industry: Value,
    businessType: Value,
    annualTurnover: Value,
    hasEmployees: Value,
    numberOfEmployees: Value)

  class Database {
    var customers: seq<CustomerRow>
    var invoices: seq<InvoiceRow>
    /** Business profiles by owner: `userId` is unique in this table. */
    var profiles: map<string, ProfileFields>
    /** The source of the ids the store gives new customer rows. */
    var nextCustomerId: nat

    constructor ()
      ensures customers == [] && invoices == [] && profiles == map[] && nextCustomerId == 0
    {
      customers := [];
      invoices := [];
      profiles := map[];
      nextCustomerId := 0;
    }
  }

  /** The id the store gives the `k`-th customer row it creates. */
  function CustomerId(k: nat): string {
    NatToString(k)
  }

  /** Distinct creation numbers give distinct ids. */
  lemma CustomerIdsDistinct(j: nat, k: nat)
    requires j != k
    ensures CustomerId(j) != CustomerId(k)
  {
    assert DigitsValue(CustomerId(j)) == j;
    assert DigitsValue(CustomerId(k)) == k;
  }
}
