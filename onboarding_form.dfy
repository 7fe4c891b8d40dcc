/** The business-profile onboarding form (app/onboarding/business-profile/page.tsx):
    field validation, field edits and the submitted payload. */
module OnboardingForm {
  import opened Wrappers
  import opened Text
  import opened Js
  import BusinessProfileRoute

  datatype FormData = FormData(
    businessName: string,
    email: string,
    address: string,
    industry: string,
    businessType: string,
    annualTurnover: string,
    hasEmployees: bool,
    numberOfEmployees: string)

  datatype Field = BusinessName | Email | Address | Industry | BusinessType | AnnualTurnover | HasEmployees | NumberOfEmployees

  /** A value an input hands to `handleInputChange`: text, or the checkbox. */
  datatype Input = Text(s: string) | Flag(b: bool)

  function Key(f: Field): string {
    match f
    case BusinessName => "businessName"
    case Email => "email"
    case Address => "address"
    case Industry => "industry"
    case BusinessType => "businessType"
    case AnnualTurnover => "annualTurnover"
    case HasEmployees => "hasEmployees"
    case NumberOfEmployees => "numberOfEmployees"
  }

  /** A key of the error map: a field, or the failed submission. */
  datatype ErrorKey = On(field: Field) | Submit

  /** The keys `validateForm` may report an error under. */
  function ValidatedKeys(): set<ErrorKey> {
    {On(BusinessName), On(Email), On(Address), On(Industry), On(BusinessType), On(NumberOfEmployees)}
  }

  function FieldValue(form: FormData, f: Field): Input {
    match f
    case BusinessName => Text(form.businessName)
    case Email => Text(form.email)
    case Address => Text(form.address)
    case Industry => Text(form.industry)
    case BusinessType => Text(form.businessType)
    case AnnualTurnover => Text(form.annualTurnover)
    case HasEmployees => Flag(form.hasEmployees)
    case NumberOfEmployees => Text(form.numberOfEmployees)
  }

  /** The checkbox takes a flag; every other field takes text. */
  predicate Fits(f: Field, v: Input) {
    f == HasEmployees <==> v.Flag?
  }

  /** `{ ...prev, [field]: value }`. */
  function SetField(form: FormData, f: Field, v: Input): (r: FormData)
    requires Fits(f, v)
  {
    match f
    case BusinessName => form.(businessName := v.s)
    case Email => form.(email := v.s)
    case Address => form.(address := v.s)
    case Industry => form.(industry := v.s)
    case BusinessType => form.(businessType := v.s)
    case AnnualTurnover => form.(annualTurnover := v.s)
    case HasEmployees => form.(hasEmployees := v.b)
    case NumberOfEmployees => form.(numberOfEmployees := v.s)
  }

  /** An edit sets the named field to the given value and no other field. */
  lemma SetFieldOnly(form: FormData, f: Field, v: Input, g: Field)
    requires Fits(f, v)
    ensures FieldValue(SetField(form, f, v), f) == v
    ensures g != f ==> FieldValue(SetField(form, f, v), g) == FieldValue(form, g)
  {
  }

  /** The class `[^\s@]`. */
  predicate Plain(c: char) {
    !IsSpace(c) && c != '@'
  }

  /** `[^\s@]*`. */
  predicate PlainRun(s: string) {
    forall i :: 0 <= i < |s| ==> Plain(s[i])
  }

  /** `[^\s@]+\.[^\s@]+` on the text after the `@`: plain text holding a
      dot with text on both sides. Since `.` is itself in the class, any
      such dot will do. */
  predicate DomainPattern(d: string) {
    PlainRun(d) && exists k :: 0 < k < |d| - 1 && d[k] == '.'
  }

  /** `/^[^\s@]+@[^\s@]+\.[^\s@]+$/`: a non-empty plain run, `@`, and a domain. */
  predicate EmailPattern(s: string) {
    exists at :: 0 < at < |s| && s[at] == '@' && PlainRun(s[..at]) && DomainPattern(s[at + 1..])
  }

  /** The states of a matcher for the pattern, read left to right. */
  datatype EmailState = Start | Local | AfterAt | Domain | Dot | Done | Reject

  function Step(q: EmailState, c: char): EmailState {
    match q
    case Start => if Plain(c) then Local else Reject
    case Local => if Plain(c) then Local else if c == '@' then AfterAt else Reject
    case AfterAt => if Plain(c) then Domain else Reject
    case Domain => if c == '.' then Dot else if Plain(c) then Domain else Reject
    case Dot => if Plain(c) then Done else Reject
    case Done => if Plain(c) then Done else Reject
    case Reject => Reject
  }

  function Run(q: EmailState, s: string): EmailState
    decreases |s|
  {
    if s == [] then q else Run(Step(q, s[0]), s[1..])
  }

  /** `.test(email)` as the matcher runs it. */
  predicate MatchEmail(s: string) {
    Run(Start, s) == Done
  }

  lemma PlainRunCons(s: string)
    requires s != []
    ensures PlainRun(s) <==> Plain(s[0]) && PlainRun(s[1..])
  {
    assert forall i :: 0 < i < |s| ==> s[i] == s[1..][i - 1];
  }

  lemma {:induction false} RejectRun(s: string)
    ensures Run(Reject, s) == Reject
    decreases |s|
  {
    if s != [] {
      RejectRun(s[1..]);
    }
  }

  lemma {:induction false} DoneRun(s: string)
    ensures Run(Done, s) == Done <==> PlainRun(s)
    decreases |s|
  {
    if s != [] {
      PlainRunCons(s);
      if Plain(s[0]) { DoneRun(s[1..]); } else { RejectRun(s[1..]); }
    }
  }

  lemma DotRun(s: string)
    ensures Run(Dot, s) == Done <==> |s| >= 1 && PlainRun(s)
  {
    if s != [] {
      PlainRunCons(s);
      if Plain(s[0]) { DoneRun(s[1..]); } else { RejectRun(s[1..]); }
    }
  }

  lemma {:induction false} DomainRun(s: string)
    ensures Run(Domain, s) == Done <==> PlainRun(s) && exists k :: 0 <= k < |s| - 1 && s[k] == '.'
    decreases |s|
  {
    if s != [] {
      PlainRunCons(s);
      if s[0] == '.' {
        DotRun(s[1..]);
      } else if Plain(s[0]) {
        DomainRun(s[1..]);
        var t := s[1..];
        if k :| 0 <= k < |s| - 1 && s[k] == '.' {
          assert t[k - 1] == '.';
        }
        if k :| 0 <= k < |t| - 1 && t[k] == '.' {
          assert s[k + 1] == '.';
        }
      } else {
        RejectRun(s[1..]);
      }
    }
  }

  lemma AfterAtRun(d: string)
    ensures Run(AfterAt, d) == Done <==> DomainPattern(d)
  {
    if d != [] {
      PlainRunCons(d);
      if Plain(d[0]) {
        var t := d[1..];
        DomainRun(t);
        if k :| 0 < k < |d| - 1 && d[k] == '.' {
          assert t[k - 1] == '.';
        }
        if k :| 0 <= k < |t| - 1 && t[k] == '.' {
          assert d[k + 1] == '.';
        }
      } else {
        RejectRun(d[1..]);
      }
    }
  }

  /** The part of the pattern after the first character, where the matcher
      is in the local part. */
  predicate LocalRest(s: string) {
    exists at :: 0 <= at < |s| && s[at] == '@' && PlainRun(s[..at]) && DomainPattern(s[at + 1..])
  }

  /** Moving the local part's condition one character to the right. */
  lemma LocalRestShift(s: string, at: nat)
    requires 0 < at < |s| && s[at] == '@'
    ensures PlainRun(s[..at]) <==> Plain(s[0]) && PlainRun(s[1..][..at - 1])
    ensures s[at + 1..] == s[1..][at..] && s[1..][at - 1] == '@'
  {
    PlainRunCons(s[..at]);
    assert s[..at][1..] == s[1..][..at - 1];
  }

  lemma LocalRestPlain(s: string)
    requires s != [] && Plain(s[0])
    ensures LocalRest(s) <==> LocalRest(s[1..])
  {
    var t := s[1..];
    if LocalRest(s) {
      var at :| 0 <= at < |s| && s[at] == '@' && PlainRun(s[..at]) && DomainPattern(s[at + 1..]);
      LocalRestShift(s, at);
      assert 0 <= at - 1 < |t| && t[at - 1] == '@' && PlainRun(t[..at - 1]) && DomainPattern(t[at - 1 + 1..]);
    }
    if LocalRest(t) {
      var at :| 0 <= at < |t| && t[at] == '@' && PlainRun(t[..at]) && DomainPattern(t[at + 1..]);
      LocalRestShift(s, at + 1);
      assert 0 <= at + 1 < |s| && s[at + 1] == '@' && PlainRun(s[..at + 1]) && DomainPattern(s[at + 1 + 1..]);
    }
  }

  lemma LocalRestAt(s: string)
    requires s != [] && s[0] == '@'
    ensures LocalRest(s) <==> DomainPattern(s[1..])
  {
    if LocalRest(s) {
      var at :| 0 <= at < |s| && s[at] == '@' && PlainRun(s[..at]) && DomainPattern(s[at + 1..]);
    }
    if DomainPattern(s[1..]) {
      assert PlainRun(s[..0]);
    }
  }

  lemma LocalRestOther(s: string)
    requires s != [] && !Plain(s[0]) && s[0] != '@'
    ensures !LocalRest(s)
  {
    if LocalRest(s) {
      var at :| 0 <= at < |s| && s[at] == '@' && PlainRun(s[..at]) && DomainPattern(s[at + 1..]);
    }
  }

  lemma {:induction false} LocalRun(s: string)
    ensures Run(Local, s) == Done <==> LocalRest(s)
    decreases |s|
  {
    if s != [] {
      if s[0] == '@' {
        LocalRestAt(s);
        AfterAtRun(s[1..]);
      } else if Plain(s[0]) {
        LocalRestPlain(s);
        LocalRun(s[1..]);
      } else {
        LocalRestOther(s);
        RejectRun(s[1..]);
      }
    }
  }

  /** The whole pattern is a plain first character followed by the local
      part's condition. */
  lemma EmailPatternCons(s: string)
    requires s != []
    ensures EmailPattern(s) <==> Plain(s[0]) && LocalRest(s[1..])
  {
    var t := s[1..];
    if EmailPattern(s) {
      var at :| 0 < at < |s| && s[at] == '@' && PlainRun(s[..at]) && DomainPattern(s[at + 1..]);
      LocalRestShift(s, at);
      assert 0 <= at - 1 < |t| && t[at - 1] == '@' && PlainRun(t[..at - 1]) && DomainPattern(t[at - 1 + 1..]);
    }
    if Plain(s[0]) && LocalRest(t) {
      var at :| 0 <= at < |t| && t[at] == '@' && PlainRun(t[..at]) && DomainPattern(t[at + 1..]);
      LocalRestShift(s, at + 1);
      assert 0 < at + 1 < |s| && s[at + 1] == '@' && PlainRun(s[..at + 1]) && DomainPattern(s[at + 1 + 1..]);
    }
  }

  /** The matcher accepts exactly the addresses the pattern describes. */
  lemma MatchEmailIff(s: string)
    ensures MatchEmail(s) <==> EmailPattern(s)
  {
    if s != [] {
      EmailPatternCons(s);
      if Plain(s[0]) {
        LocalRun(s[1..]);
      } else {
        RejectRun(s[1..]);
      }
    }
  }

  /** A matching address has exactly one `@` and no whitespace anywhere, so
      it is neither blank nor changed by trimming. */
  lemma EmailPatternShape(s: string)
    requires EmailPattern(s)
    ensures forall i :: 0 <= i < |s| ==> !IsSpace(s[i])
    ensures forall i, j :: 0 <= i < |s| && 0 <= j < |s| && s[i] == '@' && s[j] == '@' ==> i == j
    ensures !AllSpace(s)
  {
    var at :| 0 < at < |s| && s[at] == '@' && PlainRun(s[..at]) && DomainPattern(s[at + 1..]);
    assert forall i :: 0 <= i < at ==> s[i] == s[..at][i];
    assert forall i :: at < i < |s| ==> s[i] == s[at + 1..][i - at - 1];
    assert !IsSpace(s[0]) by { assert s[0] == s[..at][0]; }
  }

  lemma BlankNotEmail(s: string)
    requires AllSpace(s)
    ensures !EmailPattern(s)
  {
    if EmailPattern(s) {
      EmailPatternShape(s);
    }
  }

  /** The pattern is tested on the untrimmed text: surrounding whitespace
      makes an otherwise valid address invalid. */
  lemma PaddedEmailRejected(s: string)
    requires |s| > 0 && (IsSpace(s[0]) || IsSpace(s[|s| - 1]))
    ensures !EmailPattern(s)
  {
    if EmailPattern(s) {
      EmailPatternShape(s);
      assert false;
    }
  }

  lemma SimpleEmailAccepted()
    ensures MatchEmail("a@b.c") && EmailPattern("a@b.c")
  {
    MatchEmailIff("a@b.c");
  }

  /** `emailRegex.test(email)`: the matcher run over the text, one
      character at a time. */
  method TestEmail(s: string) returns (ok: bool)
    ensures ok <==> EmailPattern(s)
  {
    var q := Start;
    var i := 0;
    while i < |s|
      invariant 0 <= i <= |s|
      invariant Run(q, s[i..]) == Run(Start, s)
    {
      assert s[i..][1..] == s[i + 1..];
      q := Step(q, s[i]);
      i := i + 1;
    }
    MatchEmailIff(s);
    ok := q == Done;
  }

  /** The messages the form shows. The fixed texts are kept as
      constructors and spelt out by `MessageText`; a failed save carries the
      server's text. */
  datatype ErrorMessage =
    | BusinessNameRequired | EmailRequired | EmailInvalid | AddressRequired
    | IndustryRequired | BusinessTypeRequired | EmployeesRequired
    | SaveFailed(text: string)

  function MessageText(m: ErrorMessage): string {
    match m
    case BusinessNameRequired => "Business Name is required"
    case EmailRequired => "Email is required"
    case EmailInvalid => "Please enter a valid email address"
    case AddressRequired => "Address is required"
    case IndustryRequired => "Please select an industry"
    case BusinessTypeRequired => "Please select a business type"
    case EmployeesRequired => "Please specify the number of employees"
    case SaveFailed(t) => t
  }

  /** The message under `submit` after the server refused the profile:
      the response text, or a fixed text when that is empty. */
  function SubmitFailure(responseText: string): ErrorMessage {
    SaveFailed(if responseText != "" then responseText else "Failed to save business profile")
  }

  class Form {
    var form: FormData
    var errors: map<ErrorKey, ErrorMessage>
    var isLoading: bool

    constructor ()
      ensures form == FormData("", "", "", "", "", "", false, "") && errors == map[] && !isLoading
    {
      form := FormData("", "", "", "", "", "", false, "");
      errors := map[];
      isLoading := false;
    }

    /** `validateForm`: the error map names exactly the fields that fail,
      each with its message, and the form is valid iff the map is empty. */
    method ValidateForm() returns (ok: bool)
      modifies this`errors
      ensures Submit !in errors
      ensures forall f :: On(f) in errors <==> Fails(form, f)
      ensures forall f :: On(f) in errors ==> errors[On(f)] == Message(form, f)
      ensures ok <==> errors == map[]
      ensures errors == ValidationErrors(form, EmailPattern(form.email))
    {
      var emailOk := TestEmail(form.email);
      errors := ValidationErrors(form, emailOk);
      ReportsFails(form, emailOk);
      ok := |errors| == 0;
    }

    /** `handleInputChange`: one field set, and that field's error removed. */
    method HandleInputChange(f: Field, v: Input)
      requires Fits(f, v)
      modifies this`form, this`errors
      ensures form == SetField(old(form), f, v)
      ensures errors == if On(f) in old(errors) && MessageText(old(errors)[On(f)]) != "" then old(errors) - {On(f)} else old(errors)
    {
      form := SetField(form, f, v);
      if On(f) in errors && MessageText(errors[On(f)]) != "" {
        errors := errors - {On(f)};
      }
    }

    /** `handleSubmit`: nothing is sent when validation fails; otherwise the
      payload is posted, a success redirects, and a failure shows the
      response text (or a fixed message) under `submit`. `postOk` and
      `responseText` stand for the server's answer. */
    method HandleSubmit(postOk: bool, responseText: string) returns (sent: Option<Value>, redirected: bool)
      modifies this`errors, this`isLoading
      ensures sent.Some? <==> ValidForm(form)
      ensures sent.Some? ==> sent.value == SubmitPayload(form)
      ensures redirected <==> sent.Some? && postOk
      ensures sent.None? ==> errors == ValidationErrors(form, EmailPattern(form.email))
      ensures sent.None? ==> errors != map[] && forall f :: On(f) in errors <==> Fails(form, f)
      ensures sent.Some? && postOk ==> errors == map[]
      ensures sent.Some? && !postOk ==> errors == map[Submit := SubmitFailure(responseText)]
      ensures sent.Some? ==> !isLoading
      ensures sent.None? ==> isLoading == old(isLoading)
    {
      var ok := ValidateForm();
      ValidFormIff(form, errors);
      if !ok {
        return None, false;
      }
      isLoading := true;
      sent := Some(SubmitPayload(form));
      if postOk {
        redirected := true;
      } else {
        redirected := false;
        errors := map[Submit := SubmitFailure(responseText)];
      }
      isLoading := false;
    }
  }

  /** Whether `validateForm` reports an error for a field. */
  predicate Fails(form: FormData, f: Field) {
    match f
    case BusinessName => AllSpace(form.businessName)
    case Email => !EmailPattern(form.email)
    case Address => AllSpace(form.address)
    case Industry => form.industry == ""
    case BusinessType => form.businessType == ""
    case NumberOfEmployees => form.hasEmployees && form.numberOfEmployees == ""
    case _ => false
  }

  /** The message `validateForm` shows for a failing field. */
  function Message(form: FormData, f: Field): ErrorMessage {
    match f
    case BusinessName => BusinessNameRequired
    case Email => if AllSpace(form.email) then EmailRequired else EmailInvalid
    case Address => AddressRequired
    case Industry => IndustryRequired
    case BusinessType => BusinessTypeRequired
    case _ => EmployeesRequired
  }

  /** The error map `validateForm` builds, one check after another, given
      the answer of the e-mail pattern test. */
  function ValidationErrors(data: FormData, emailOk: bool): map<ErrorKey, ErrorMessage> {
    // `!value.trim()` holds exactly when the value is all whitespace (Text.TrimEmptyIff).
    var m0: map<ErrorKey, ErrorMessage> := map[];
    var m1 := if AllSpace(data.businessName) then m0[On(BusinessName) := BusinessNameRequired] else m0;
    var m2 :=
      if AllSpace(data.email) then m1[On(Email) := EmailRequired]
      else if !emailOk then m1[On(Email) := EmailInvalid]
      else m1;
    var m3 := if AllSpace(data.address) then m2[On(Address) := AddressRequired] else m2;
    var m4 := if data.industry == "" then m3[On(Industry) := IndustryRequired] else m3;
    var m5 := if data.businessType == "" then m4[On(BusinessType) := BusinessTypeRequired] else m4;
    if data.hasEmployees && data.numberOfEmployees == "" then m5[On(NumberOfEmployees) := EmployeesRequired] else m5
  }

  /** With the pattern test's true answer, the checks report exactly the
      failing fields, each with its message, and nothing under `submit`. */
  lemma ReportsFails(data: FormData, emailOk: bool)
    requires emailOk <==> EmailPattern(data.email)
    ensures var m := ValidationErrors(data, emailOk);
      Submit !in m && forall f :: On(f) in m <==> Fails(data, f)
    ensures var m := ValidationErrors(data, emailOk);
      forall f :: On(f) in m ==> m[On(f)] == Message(data, f)
  {
    var m := ValidationErrors(data, emailOk);
    if AllSpace(data.email) {
      BlankNotEmail(data.email);
    }
    forall f
      ensures On(f) in m <==> Fails(data, f)
      ensures On(f) in m ==> m[On(f)] == Message(data, f)
    {
      match f
      case BusinessName =>
      case Email =>
      case Address =>
      case Industry =>
      case BusinessType =>
      case AnnualTurnover =>
      case HasEmployees =>
      case NumberOfEmployees =>
    }
  }

  /** The form `validateForm` accepts. */
  predicate ValidForm(form: FormData) {
    && !AllSpace(form.businessName) && EmailPattern(form.email) && !AllSpace(form.address)
    && form.industry != "" && form.businessType != ""
    && (form.hasEmployees ==> form.numberOfEmployees != "")
  }

  /** The form is valid iff no field fails. */
  lemma ValidFormIff(form: FormData, errors: map<ErrorKey, ErrorMessage>)
    requires Submit !in errors
    requires forall f :: On(f) in errors <==> Fails(form, f)
    ensures errors == map[] <==> ValidForm(form)
  {
    if errors != map[] {
      var k :| k in errors;
      assert k == On(k.field);
      assert Fails(form, k.field);
    } else {
      assert !Fails(form, BusinessName) && !Fails(form, Email) && !Fails(form, Address);
      assert !Fails(form, Industry) && !Fails(form, BusinessType) && !Fails(form, NumberOfEmployees);
    }
  }

  /** The JSON body sent to the server: the form with `numberOfEmployees`
      nulled unless `hasEmployees` is set. */
  function SubmitPayload(form: FormData): Value {
    Obj(map[
      "businessName" := Str(form.businessName),
      "email" := Str(form.email),
      "address" := Str(form.address),
      "industry" := Str(form.industry),
      "businessType" := Str(form.businessType),
      "annualTurnover" := Str(form.annualTurnover),
      "hasEmployees" := Bool(form.hasEmployees),
      "numberOfEmployees" := if form.hasEmployees then Str(form.numberOfEmployees) else Null])
  }

  /** A form that passes validation always passes the server's
      required-fields check. */
  lemma ValidPayloadAccepted(form: FormData)
    requires ValidForm(form)
    ensures BusinessProfileRoute.HasRequired(SubmitPayload(form))
  {
    EmailPatternShape(form.email);
  }

  /** The server stores no employee count for a business without
      employees, whatever the hidden count field held. */
  lemma NoEmployeesStoresNull(form: FormData)
    requires !form.hasEmployees
    ensures BusinessProfileRoute.Normalise(SubmitPayload(form)).numberOfEmployees == Null
  {
  }

  /** A selected industry reaches the stored profile unchanged. */
  lemma IndustryKept(form: FormData)
    requires form.industry != ""
    ensures BusinessProfileRoute.Normalise(SubmitPayload(form)).industry == Str(form.industry)
  {
    assert SubmitPayload(form).fields["industry"] == Str(form.industry);
  }
}
