/** `GET /api/customers` (app/api/customers/route.ts): the caller's customers
    in name order, seeded once with four demonstration customers. */
module CustomersRoute {
  import opened Wrappers
  import opened Text
  import opened Sorting
  import opened Store

  datatype SeedCustomer = SeedCustomer(name: string, email: string, address: string)

  /** `MOCK_CUSTOMERS`. */
  function MockCustomers(): seq<SeedCustomer> {
    [ SeedCustomer("Amit Patel", "amit@example.com", "123 Tech Park, Bangalore"),
      SeedCustomer("Sunita Reddy", "sunita@example.com", "456 IT Hub, Hyderabad"),
      SeedCustomer("Vikram Singh", "vikram@example.com", "789 Business Bay, Mumbai"),
      SeedCustomer("Priya Sharma", "priya@example.com", "101 Cyber City, Gurgaon") ]
  }

  /** `createMany` of the mock customers under `uid`, the store numbering
      the new rows from `next`. */
  function SeedRows(uid: string, next: nat): (r: seq<CustomerRow>)
    ensures |r| == |MockCustomers()| == 4
    ensures forall i :: 0 <= i < |r| ==>
      && r[i].userId == uid && r[i].id == CustomerId(next + i)
      && SeedCustomer(r[i].name, r[i].email, r[i].address) == MockCustomers()[i]
  {
    var m := MockCustomers();
    seq(|m|, i requires 0 <= i < |m| => CustomerRow(CustomerId(next + i), uid, m[i].name, m[i].email, m[i].address))
  }

  /** `orderBy: { name: 'asc' }`: a row may stay before any row whose name is not smaller. */
  function ByName(): (CustomerRow, CustomerRow) -> bool {
    (a: CustomerRow, b: CustomerRow) => !StrLess(b.name, a.name)
  }

  function OwnedBy(uid: string): CustomerRow -> bool {
    (c: CustomerRow) => c.userId == uid
  }

  /** `findMany({ where: { userId }, orderBy: { name: 'asc' } })`. */
  function UserCustomers(rows: seq<CustomerRow>, uid: string): seq<CustomerRow> {
    Sort(Filter(rows, OwnedBy(uid)), ByName())
  }

  lemma ByNameIsTotalPreorder()
    ensures TotalPreorder(ByName())
  {
    forall a: CustomerRow, b: CustomerRow
      ensures ByName()(a, b) || ByName()(b, a)
    {
      StrLessTotal(a.name, b.name);
      StrLessIrreflexive(a.name);
      if StrLess(a.name, b.name) && StrLess(b.name, a.name) {
        StrLessTransitive(a.name, b.name, a.name);
      }
    }
    forall a: CustomerRow, b: CustomerRow, c: CustomerRow | ByName()(a, b) && ByName()(b, c)
      ensures ByName()(a, c)
    {
      if StrLess(c.name, a.name) {
        StrLessTotal(a.name, b.name);
        if StrLess(a.name, b.name) {
          StrLessTransitive(c.name, a.name, b.name);
        }
        assert false;
      }
    }
  }

  /** The listing holds exactly the caller's rows, in name order. */
  lemma UserCustomersSpec(rows: seq<CustomerRow>, uid: string)
    ensures multiset(UserCustomers(rows, uid)) == multiset(Filter(rows, OwnedBy(uid)))
    ensures forall c :: c in UserCustomers(rows, uid) <==> c in rows && c.userId == uid
    ensures forall i, j :: 0 <= i < j < |UserCustomers(rows, uid)| ==>
      !StrLess(UserCustomers(rows, uid)[j].name, UserCustomers(rows, uid)[i].name)
  {
    var own := Filter(rows, OwnedBy(uid));
    var r := UserCustomers(rows, uid);
    ByNameIsTotalPreorder();
    SortSorted(own, ByName());
    forall x
      ensures x in r <==> x in rows && x.userId == uid
    {
      FilterMembers(rows, OwnedBy(uid), x);
      assert x in r <==> x in multiset(r);
      assert x in own <==> x in multiset(own);
    }
    forall i, j | 0 <= i < j < |r|
      ensures !StrLess(r[j].name, r[i].name)
    {
      assert ByName()(r[i], r[j]);
    }
  }

  /** Seeding a tenant that has no customers leaves it exactly the four
      mock customers, so a later call finds some and does not seed again;
      other tenants' listings are unchanged. */
  lemma SeedingResult(rows: seq<CustomerRow>, uid: string, next: nat, other: string)
    requires |UserCustomers(rows, uid)| == 0
    requires other != uid
    ensures multiset(UserCustomers(rows + SeedRows(uid, next), uid)) == multiset(SeedRows(uid, next))
    ensures |UserCustomers(rows + SeedRows(uid, next), uid)| == 4
    ensures UserCustomers(rows + SeedRows(uid, next), other) == UserCustomers(rows, other)
  {
    var seed := SeedRows(uid, next);
    FilterAppend(rows, seed, OwnedBy(uid));
    FilterAll(seed, OwnedBy(uid));
    assert Filter(rows, OwnedBy(uid)) == [];
    assert [] + seed == seed;
    FilterAppend(rows, seed, OwnedBy(other));
    NoneOwned(seed, other);
    assert Filter(rows, OwnedBy(other)) + [] == Filter(rows, OwnedBy(other));
  }

  lemma {:induction false} NoneOwned(s: seq<CustomerRow>, uid: string)
    requires forall k :: 0 <= k < |s| ==> s[k].userId != uid
    ensures Filter(s, OwnedBy(uid)) == []
  {
    if s != [] {
      NoneOwned(s[1..], uid);
    }
  }

  /** Where a store call throws: none, the first read, the seeding write or the re-read. */
  datatype StoreFailure = NoFailure | FailFirstRead | FailSeed | FailReread

  /** `GET`: 401 without a session and no store access. A tenant with
      customers gets them in name order and nothing is written; a tenant
      without gets the four mock customers created under its id and then
      listed. A store error gives 500; a failed re-read keeps the seeded rows. */
  method HandleGet(db: Database, userId: Option<string>, failure: StoreFailure)
    returns (resp: Response<seq<CustomerRow>>)
    modifies db`customers, db`nextCustomerId
    ensures !SignedIn(userId) ==> resp == Status(401, "Unauthorized") && unchanged(db)
    ensures SignedIn(userId) ==> var uid := userId.value;
      var seeds := |UserCustomers(old(db.customers), uid)| == 0 && failure != FailFirstRead;
      && (seeds && failure != FailSeed ==>
            db.customers == old(db.customers) + SeedRows(uid, old(db.nextCustomerId))
            && db.nextCustomerId == old(db.nextCustomerId) + 4)
      && (!seeds || failure == FailSeed ==> unchanged(db))
      && (resp.Json? <==> failure == NoFailure || (failure == FailSeed && !seeds) || (failure == FailReread && !seeds))
      && (resp.Json? ==> resp.body == UserCustomers(db.customers, uid))
      && (resp.Status? ==> resp == Status(500, "Internal Error"))
  {
    if !SignedIn(userId) {
      return Status(401, "Unauthorized");
    }
    var uid := userId.value;
    if failure == FailFirstRead {
      return Status(500, "Internal Error");
    }
    var customers := UserCustomers(db.customers, uid);
    if |customers| == 0 {
      if failure == FailSeed {
        return Status(500, "Internal Error");
      }
      db.customers := db.customers + SeedRows(uid, db.nextCustomerId);
      db.nextCustomerId := db.nextCustomerId + 4;
      if failure == FailReread {
        return Status(500, "Internal Error");
      }
      customers := UserCustomers(db.customers, uid);
    }
    return Json(customers);
  }
}
