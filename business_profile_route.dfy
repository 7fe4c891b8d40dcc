/** `GET /api/business-profile` and `POST /api/business-profile`
    (app/api/business-profile/route.ts). */
module BusinessProfileRoute {
  import opened Wrappers
  import opened Text
  import opened Js
  import opened Store

  /** `{ exists: false }` or `{ exists: true, profile }`; `profileExists` is the `exists` key. */
  datatype Lookup = Lookup(profileExists: bool, profile: Option<ProfileFields>)

  /** `GET`: 401 without a session; otherwise whether the caller has a
      profile. A store error is answered as "no profile" so that onboarding
      can proceed. Nothing is written. */
  method HandleGet(db: Database, userId: Option<string>, storeFails: bool) returns (resp: Response<Lookup>)
    ensures !SignedIn(userId) ==> resp == Status(401, "Unauthorized")
    ensures SignedIn(userId) ==> resp.Json?
    ensures resp.Json? ==> (resp.body.profileExists <==> !storeFails && userId.value in db.profiles)
    ensures resp.Json? && resp.body.profileExists ==> resp.body.profile == Some(db.profiles[userId.value])
    ensures resp.Json? && !resp.body.profileExists ==> resp.body.profile.None?
  {
    if !SignedIn(userId) {
      return Status(401, "Unauthorized");
    }
    var uid := userId.value;
    if storeFails || uid !in db.profiles {
      return Json(Lookup(false, None));
    }
    return Json(Lookup(true, Some(db.profiles[uid])));
  }

  /** `cond ? f(v) : null`. */
  function WhenTruthy(v: Value, parsed: Value): Value {
    if Truthy(v) then parsed else Null
  }

  /** The columns the route writes, on update and on create alike. */
  function Normalise(b: Value): (r: ProfileFields)
    requires !b.Undefined? && !b.Null?
  {
    var turnover := Get(b, "annualTurnover").value;
    var employees := Get(b, "numberOfEmployees").value;
    ProfileFields(
      Get(b, "businessName").value,
      Get(b, "email").value,
      Get(b, "address").value,
      Or(Get(b, "industry").value, Null),
      Or(Get(b, "businessType").value, Null),
      WhenTruthy(turnover, ParseFloatOf(turnover)),
      Or(Get(b, "hasEmployees").value, Bool(false)),
      WhenTruthy(employees, ParseIntOf(employees)))
  }

  /** A stored profile written by this route: its optional text fields are
      truthy or `null`, `hasEmployees` is truthy or `false`, and the two
      numeric fields are numbers, `NaN` or `null`. */
  predicate Canonical(p: ProfileFields) {
    && (Truthy(p.industry) || p.industry == Null)
    && (Truthy(p.businessType) || p.businessType == Null)
    && (Truthy(p.hasEmployees) || p.hasEmployees == Bool(false))
    && (p.annualTurnover.Num? || p.annualTurnover.NaN? || p.annualTurnover == Null)
    && (p.numberOfEmployees.Num? || p.numberOfEmployees.NaN? || p.numberOfEmployees == Null)
  }

  lemma NormaliseCanonical(b: Value)
    requires !b.Undefined? && !b.Null?
    ensures Canonical(Normalise(b))
    ensures Normalise(b).numberOfEmployees.Num? ==>
      Normalise(b).numberOfEmployees.n == Normalise(b).numberOfEmployees.n.Floor as real
  {
    var turnover := Get(b, "annualTurnover").value;
    var employees := Get(b, "numberOfEmployees").value;
    var p := Normalise(b);
    assert p.annualTurnover == WhenTruthy(turnover, ParseFloatOf(turnover));
    assert p.numberOfEmployees == WhenTruthy(employees, ParseIntOf(employees));
  }

  /** Empty industry or business type is stored as `null`, a missing
      `hasEmployees` as `false`, and missing numbers as `null`. */
  lemma NormaliseBlankFields(b: Value)
    requires b.Obj? && "industry" !in b.fields && "annualTurnover" !in b.fields
    requires "hasEmployees" !in b.fields && "numberOfEmployees" !in b.fields
    requires "businessType" in b.fields && b.fields["businessType"] == Str("")
    ensures var p := Normalise(b);
      p.industry == Null && p.businessType == Null && p.hasEmployees == Bool(false)
      && p.annualTurnover == Null && p.numberOfEmployees == Null
  {
  }

  /** A turnover band such as "< 20 Lakh" (what the profile route stores) is
      not a number, so this route stores `NaN` for it. */
  lemma TurnoverBandIsNaN(b: Value)
    requires b.Obj? && "annualTurnover" in b.fields && b.fields["annualTurnover"] == Str("< 20 Lakh")
    ensures Normalise(b).annualTurnover == NaN
  {
    var s := "< 20 Lakh";
    assert s[0] == '<' && !IsSpace('<');
    assert TrimStart(s) == s;
    assert !IsDigit(s[0]) && s[0] != '.';
  }

  /** The request's three required fields are all truthy. Whitespace-only
      text is truthy, so it passes. */
  predicate HasRequired(b: Value)
    requires !b.Undefined? && !b.Null?
  {
    Truthy(Get(b, "businessName").value) && Truthy(Get(b, "email").value) && Truthy(Get(b, "address").value)
  }

  lemma WhitespaceNamePasses(b: Value)
    requires b.Obj? && "businessName" in b.fields && "email" in b.fields && "address" in b.fields
    requires b.fields["businessName"] == Str(" ") && b.fields["email"] == Str(" ") && b.fields["address"] == Str(" ")
    ensures HasRequired(b)
  {
  }

  /** `POST`: 401 without a session before the body is read; 500 when the
      body cannot be read; 400 when a required field is falsy, before any
      store access; otherwise the caller's single profile is updated, or
      created, with the normalised columns. A store error gives 500 and
      changes nothing. */
  method HandlePost(db: Database, userId: Option<string>, body: Option<Value>, storeFails: bool)
    returns (resp: Response<ProfileFields>)
    modifies db`profiles
    ensures !SignedIn(userId) ==> resp == Status(401, "Unauthorized")
    ensures SignedIn(userId) && (body.None? || body.value.Undefined? || body.value.Null?) ==>
      resp == Status(500, "Internal Error")
    ensures SignedIn(userId) && body.Some? && !body.value.Undefined? && !body.value.Null? ==>
      && (!HasRequired(body.value) ==> resp == Status(400, "Business Name, Email, and Address are required"))
      && (HasRequired(body.value) && storeFails ==>
            resp == Status(500, "Failed to save profile. Please check your database connection and try again."))
      && (HasRequired(body.value) && !storeFails ==>
            resp == Json(Normalise(body.value))
            && db.profiles == old(db.profiles)[userId.value := Normalise(body.value)])
    ensures resp.Status? ==> db.profiles == old(db.profiles)
  {
    if !SignedIn(userId) {
      return Status(401, "Unauthorized");
    }
    if body.None? || body.value.Undefined? || body.value.Null? {
      return Status(500, "Internal Error");
    }
    var b := body.value;
    if !HasRequired(b) {
      return Status(400, "Business Name, Email, and Address are required");
    }
    if storeFails {
      return Status(500, "Failed to save profile. Please check your database connection and try again.");
    }
    var uid := userId.value;
    var fields := Normalise(b);
    if uid in db.profiles {
      // update({ where: { userId }, data })
      db.profiles := db.profiles[uid := fields];
    } else {
      // create({ data: { userId, ... } })
      db.profiles := db.profiles[uid := fields];
    }
    return Json(fields);
  }

  /** After a successful save the caller has exactly one profile, the one
      just written; other owners' profiles are untouched. */
  lemma SaveKeepsOneProfile(profiles: map<string, ProfileFields>, uid: string, fields: ProfileFields, other: string)
    requires other != uid
    ensures var after := profiles[uid := fields];
      after.Keys == profiles.Keys + {uid} && after[uid] == fields
      && (other in profiles <==> other in after)
      && (other in profiles ==> after[other] == profiles[other])
  {
  }
}
