/** `GET /api/profile` and `POST /api/profile` (app/api/profile/route.ts):
    the stored profile or a default built from the signed-in user, and a
    partial upsert of the caller's profile. */
module ProfileRoute {
  import opened Wrappers
  import opened Text
  import opened Js
  import opened Store

  /** The parts of the signed-in user the route reads. */
  datatype User = User(firstName: Option<string>, lastName: Option<string>, emailAddresses: seq<string>)

  /** `` `${firstName || ''} ${lastName || ''}`.trim() || 'My Business' ``. */
  function DefaultName(user: User): (r: string)
    ensures r != []
    ensures r == "My Business" || r == Trim(user.firstName.GetOr("") + " " + user.lastName.GetOr(""))
  {
    var joined := Trim(user.firstName.GetOr("") + " " + user.lastName.GetOr(""));
    if joined == "" then "My Business" else joined
  }

  /** A user with no name parts, or blank ones, gets "My Business". */
  lemma BlankNameDefault(user: User)
    requires AllSpace(user.firstName.GetOr("")) && AllSpace(user.lastName.GetOr(""))
    ensures DefaultName(user) == "My Business"
  {
    var s := user.firstName.GetOr("") + " " + user.lastName.GetOr("");
    assert AllSpace(s) by {
      forall i | 0 <= i < |s| ensures IsSpace(s[i]) {
        if i < |user.firstName.GetOr("")| {
          assert s[i] == user.firstName.GetOr("")[i];
        } else if i == |user.firstName.GetOr("")| {
          assert s[i] == ' ';
        } else {
          assert s[i] == user.lastName.GetOr("")[i - |user.firstName.GetOr("")| - 1];
        }
      }
    }
    TrimEmptyIff(s);
  }

  /** A non-blank first name yields a name that is not the placeholder's fallback. */
  lemma NamedUserKeepsName(user: User)
    requires !AllSpace(user.firstName.GetOr(""))
    ensures DefaultName(user) == Trim(user.firstName.GetOr("") + " " + user.lastName.GetOr(""))
  {
    var f := user.firstName.GetOr("");
    var s := f + " " + user.lastName.GetOr("");
    var k :| 0 <= k < |f| && !IsSpace(f[k]);
    assert s[k] == f[k];
    TrimEmptyIff(s);
  }

  /** The profile `GET` answers with when none is stored. */
  function DefaultProfile(user: User): ProfileFields {
    ProfileFields(
      Str(DefaultName(user)),
      Str(if |user.emailAddresses| > 0 && user.emailAddresses[0] != "" then user.emailAddresses[0] else ""),
      Str(""),
      Str("Services"),
      Str("Private Limited Company"),
      Str("20 Lakh - 1 Crore"),
      Bool(false),
      Num(0.0))
  }

  /** `GET`: 401 without a session or user; the stored profile when there is
      one; otherwise, and also when the store fails, the default. */
  method HandleGet(db: Database, userId: Option<string>, user: Option<User>, storeFails: bool)
    returns (resp: Response<ProfileFields>)
    ensures !SignedIn(userId) || user.None? ==> resp == Status(401, "Unauthorized")
    ensures SignedIn(userId) && user.Some? ==> resp.Json?
    ensures resp.Json? && !storeFails && userId.value in db.profiles ==> resp.body == db.profiles[userId.value]
    ensures resp.Json? && (storeFails || userId.value !in db.profiles) ==> resp.body == DefaultProfile(user.value)
  {
    if !SignedIn(userId) || user.None? {
      return Status(401, "Unauthorized");
    }
    if !storeFails && userId.value in db.profiles {
      return Json(db.profiles[userId.value]);
    }
    return Json(DefaultProfile(user.value));
  }

  /** The profile's columns, named by their JSON keys in `Key`. */
  datatype Field = BusinessName | Email | Address | Industry | BusinessType
                 | AnnualTurnover | HasEmployees | NumberOfEmployees

  function Key(f: Field): string {
    match f
    case BusinessName => "businessName"
    case Email => "email"
    case Address => "address"
    case Industry => "industry"
    case BusinessType => "businessType"
    case AnnualTurnover => "annualTurnover"
    case HasEmployees => "hasEmployees"
    case NumberOfEmployees => "numberOfEmployees"
  }

  /** The fields `dataToSave` includes only when the body gives them. */
  predicate Optional(f: Field) {
    !(f.BusinessName? || f.Email? || f.Address?)
  }

  /** The value the body destructures for a field. */
  function Given(b: Value, f: Field): Value
    requires !b.Undefined? && !b.Null?
  {
    Get(b, Key(f)).value
  }

  /** One `if (x !== undefined) dataToSave.x = x`. */
  function AddIfGiven(data: map<Field, Value>, b: Value, g: Field): map<Field, Value>
    requires !b.Undefined? && !b.Null?
  {
    if !Given(b, g).Undefined? then data[g := Given(b, g)] else data
  }

  /** `dataToSave`: the three main fields, then each optional field in turn. */
  function DataToSave(b: Value): map<Field, Value>
    requires !b.Undefined? && !b.Null?
  {
    var main := map[BusinessName := Given(b, BusinessName), Email := Given(b, Email), Address := Given(b, Address)];
    var d1 := AddIfGiven(main, b, Industry);
    var d2 := AddIfGiven(d1, b, BusinessType);
    var d3 := AddIfGiven(d2, b, AnnualTurnover);
    var d4 := AddIfGiven(d3, b, HasEmployees);
    AddIfGiven(d4, b, NumberOfEmployees)
  }

  /** A field is added by its own step and kept by the others. */
  lemma AddIfGivenMeaning(data: map<Field, Value>, b: Value, g: Field, f: Field)
    requires !b.Undefined? && !b.Null?
    ensures f in AddIfGiven(data, b, g) <==> f in data || (f == g && !Given(b, g).Undefined?)
    ensures f == g && !Given(b, g).Undefined? ==> AddIfGiven(data, b, g)[f] == Given(b, g)
    ensures f in data && !(f == g && !Given(b, g).Undefined?) ==> AddIfGiven(data, b, g)[f] == data[f]
  {
  }

  /** `dataToSave` holds the three main fields always and each optional
      field exactly when the body does not leave it `undefined`, always with
      the value the body gives. */
  lemma DataToSaveMeaning(b: Value, f: Field)
    requires !b.Undefined? && !b.Null?
    ensures f in DataToSave(b) <==> !Optional(f) || !Given(b, f).Undefined?
    ensures f in DataToSave(b) ==> DataToSave(b)[f] == Given(b, f)
  {
    var main := map[BusinessName := Given(b, BusinessName), Email := Given(b, Email), Address := Given(b, Address)];
    var d1 := AddIfGiven(main, b, Industry);
    var d2 := AddIfGiven(d1, b, BusinessType);
    var d3 := AddIfGiven(d2, b, AnnualTurnover);
    var d4 := AddIfGiven(d3, b, HasEmployees);
    AddIfGivenMeaning(main, b, Industry, f);
    AddIfGivenMeaning(d1, b, BusinessType, f);
    AddIfGivenMeaning(d2, b, AnnualTurnover, f);
    AddIfGivenMeaning(d3, b, HasEmployees, f);
    AddIfGivenMeaning(d4, b, NumberOfEmployees, f);
  }

  /** A stored profile's column. */
  function Stored(p: ProfileFields, f: Field): Value {
    match f
    case BusinessName => p.businessName
    case Email => p.email
    case Address => p.address
    case Industry => p.industry
    case BusinessType => p.businessType
    case AnnualTurnover => p.annualTurnover
    case HasEmployees => p.hasEmployees
    case NumberOfEmployees => p.numberOfEmployees
  }

  /** One column of an update: a value given in `data` replaces the stored
      one; a field that is absent, or whose value is `undefined`, leaves the
      column as it is (the store ignores `undefined` in update data). */
  function Column(data: map<Field, Value>, f: Field, stored: Value): Value {
    if f in data && !data[f].Undefined? then data[f] else stored
  }

  /** `upsert`'s update branch applied to a stored profile. */
  function Update(p: ProfileFields, data: map<Field, Value>): ProfileFields {
    ProfileFields(
      Column(data, BusinessName, p.businessName),
      Column(data, Email, p.email),
      Column(data, Address, p.address),
      Column(data, Industry, p.industry),
      Column(data, BusinessType, p.businessType),
      Column(data, AnnualTurnover, p.annualTurnover),
      Column(data, HasEmployees, p.hasEmployees),
      Column(data, NumberOfEmployees, p.numberOfEmployees))
  }

  /** `upsert`'s create branch: every falsy field takes a fixed default. */
  function Create(b: Value): ProfileFields
    requires !b.Undefined? && !b.Null?
  {
    ProfileFields(
      Or(Get(b, "businessName").value, Str("My Business")),
      Or(Get(b, "email").value, Str("")),
      Or(Get(b, "address").value, Str("")),
      Or(Get(b, "industry").value, Str("Services")),
      Or(Get(b, "businessType").value, Str("Sole Proprietorship")),
      Or(Get(b, "annualTurnover").value, Str("< 20 Lakh")),
      Or(Get(b, "hasEmployees").value, Bool(false)),
      Or(Get(b, "numberOfEmployees").value, Num(0.0)))
  }

  /** An update writes exactly the fields the body gives: a field the body
      leaves out (or gives as `undefined`) keeps its stored value, so a
      partial update such as one carrying only the three main fields keeps
      every other column, and a given value, even `null` or empty, replaces
      the stored one. */
  lemma UpdateMeaning(p: ProfileFields, b: Value, f: Field)
    requires !b.Undefined? && !b.Null?
    ensures Stored(Update(p, DataToSave(b)), f) == if Given(b, f).Undefined? then Stored(p, f) else Given(b, f)
  {
    DataToSaveMeaning(b, f);
  }

  /** A body field is `undefined` exactly when the body object lacks the key
      or holds `undefined` under it. */
  lemma GivenOfObject(fields: map<string, Value>, f: Field)
    ensures Given(Obj(fields), f).Undefined? <==> Key(f) !in fields || fields[Key(f)].Undefined?
  {
  }

  /** Creating from an empty body stores the fixed defaults. */
  lemma CreateDefaults()
    ensures Create(Obj(map[])) == ProfileFields(Str("My Business"), Str(""), Str(""), Str("Services"),
      Str("Sole Proprietorship"), Str("< 20 Lakh"), Bool(false), Num(0.0))
  {
  }

  /** A created profile keeps every truthy field of the body as given. */
  lemma CreateKeepsTruthy(b: Value, key: string)
    requires b.Obj? && key in b.fields && Truthy(b.fields[key])
    ensures key == "businessType" ==> Create(b).businessType == b.fields[key]
    ensures key == "annualTurnover" ==> Create(b).annualTurnover == b.fields[key]
    ensures key == "businessName" ==> Create(b).businessName == b.fields[key]
  {
  }

  /** The default `GET` answers with and the profile a first `POST` without
      those fields creates disagree on business type and turnover band. */
  lemma DefaultsDiffer(user: User)
    ensures DefaultProfile(user).businessType != Create(Obj(map[])).businessType
    ensures DefaultProfile(user).annualTurnover != Create(Obj(map[])).annualTurnover
    ensures DefaultProfile(user).industry == Create(Obj(map[])).industry
  {
    CreateDefaults();
    assert "Private Limited Company"[0] != "Sole Proprietorship"[0];
    assert "20 Lakh - 1 Crore"[0] != "< 20 Lakh"[0];
  }

  /** `POST`: 401 without a session; 500 when the body cannot be read or the
      store fails; otherwise the caller's profile is updated with
      `dataToSave`, or created with defaults, keyed by the caller's id. */
  method HandlePost(db: Database, userId: Option<string>, body: Option<Value>, storeFails: bool)
    returns (resp: Response<ProfileFields>)
    modifies db`profiles
    ensures !SignedIn(userId) ==> resp == Status(401, "Unauthorized")
    ensures resp.Json? <==> SignedIn(userId) && body.Some? && !body.value.Undefined? && !body.value.Null? && !storeFails
    ensures resp.Status? && SignedIn(userId) ==> resp == Status(500, "Internal Error")
    ensures resp.Status? ==> db.profiles == old(db.profiles)
    ensures resp.Json? ==> var uid := userId.value;
      && db.profiles == old(db.profiles)[uid := resp.body]
      && (uid in old(db.profiles) ==> resp.body == Update(old(db.profiles)[uid], DataToSave(body.value)))
      && (uid !in old(db.profiles) ==> resp.body == Create(body.value))
  {
    if !SignedIn(userId) {
      return Status(401, "Unauthorized");
    }
    if body.None? || body.value.Undefined? || body.value.Null? {
      return Status(500, "Internal Error");
    }
    var b := body.value;
    var data := DataToSave(b);
    if storeFails {
      return Status(500, "Internal Error");
    }
    var uid := userId.value;
    var profile;
    if uid in db.profiles {
      profile := Update(db.profiles[uid], data);
    } else {
      profile := Create(b);
    }
    db.profiles := db.profiles[uid := profile];
    return Json(profile);
  }
}
