/** The payment dialog of a compliance task (components/PaymentModal.tsx):
    the card and bank-transfer validators, the guard in front of the
    simulated payment, and the amount shown. Each regular expression of the
    source is written out as a predicate over characters. */
module Payment {
  import opened Text
  import opened Domain

  datatype PaymentMethod = CreditCard | BankTransfer

  /** The five inputs of the dialog, which are also the keys of its error map. */
  datatype PaymentField = CardNumber | CardExpiry | CardCvc | AccountNumber | IfscCode

  datatype PaymentDetails = PaymentDetails(
    cardNumber: string,
    cardExpiry: string,
    cardCvc: string,
    accountNumber: string,
    ifscCode: string)

  function FieldValue(d: PaymentDetails, f: PaymentField): string {
    match f
    case CardNumber => d.cardNumber
    case CardExpiry => d.cardExpiry
    case CardCvc => d.cardCvc
    case AccountNumber => d.accountNumber
    case IfscCode => d.ifscCode
  }

  /** `{ ...prev, [name]: value }`. */
  function SetField(d: PaymentDetails, f: PaymentField, v: string): (r: PaymentDetails)
    ensures FieldValue(r, f) == v
    ensures forall g :: g != f ==> FieldValue(r, g) == FieldValue(d, g)
  {
    match f
    case CardNumber => d.(cardNumber := v)
    case CardExpiry => d.(cardExpiry := v)
    case CardCvc => d.(cardCvc := v)
    case AccountNumber => d.(accountNumber := v)
    case IfscCode => d.(ifscCode := v)
  }

  /** The message shown under a field that fails. */
  function ErrorText(f: PaymentField): string {
    match f
    case CardNumber => "Card number must be 16 digits."
    case CardExpiry => "Expiry must be in MM/YY format."
    case CardCvc => "CVC must be 3 digits."
    case AccountNumber => "Please enter a valid account number."
    case IfscCode => "Please enter a valid IFSC code."
  }

  // ---- the validators -----------------------------------------------------

  /** `s.replace(/\s/g, '')`. */
  function StripSpaces(s: string): (r: string)
    ensures |r| <= |s|
    ensures forall i :: 0 <= i < |r| ==> !IsSpace(r[i])
  {
    if s == [] then []
    else if IsSpace(s[|s| - 1]) then StripSpaces(s[..|s| - 1])
    else StripSpaces(s[..|s| - 1]) + [s[|s| - 1]]
  }

  lemma {:induction false} StripSpacesAppend(a: string, b: string)
    ensures StripSpaces(a + b) == StripSpaces(a) + StripSpaces(b)
    decreases |b|
  {
    if b == [] {
      assert a + b == a;
    } else {
      StripSpacesAppend(a, b[..|b| - 1]);
      assert (a + b)[..|a + b| - 1] == a + b[..|b| - 1];
    }
  }

  /** A string without whitespace is left as it is. */
  lemma {:induction false} StripSpacesNone(s: string)
    requires forall i :: 0 <= i < |s| ==> !IsSpace(s[i])
    ensures StripSpaces(s) == s
  {
    if s != [] {
      StripSpacesNone(s[..|s| - 1]);
    }
  }

  /** `/^\d{16}$/` on the card number with its whitespace removed. */
  predicate CardNumberValid(s: string) {
    var d := StripSpaces(s);
    |d| == 16 && AllDigits(d)
  }

  /** The month group `(0[1-9]|1[0-2])`. */
  predicate MonthDigits(a: char, b: char) {
    (a == '0' && '1' <= b <= '9') || (a == '1' && '0' <= b <= '2')
  }

  /** `/^(0[1-9]|1[0-2])\/?([0-9]{2})$/`: a month, an optional slash, two digits. */
  predicate ExpiryValid(s: string) {
    (|s| == 4 && MonthDigits(s[0], s[1]) && IsDigit(s[2]) && IsDigit(s[3]))
    || (|s| == 5 && MonthDigits(s[0], s[1]) && s[2] == '/' && IsDigit(s[3]) && IsDigit(s[4]))
  }

  /** `/^\d{3}$/`. */
  predicate CvcValid(s: string) {
    |s| == 3 && AllDigits(s)
  }

  /** `trim().length >= 9`, with `length` counted in UTF-16 code units.
      Every whitespace character is one code unit, so the trimmed text has
      as many fewer code units as it has fewer characters
      (`AccountNumberValidMeaning`). */
  predicate AccountNumberValid(s: string) {
    Utf16Length(s) - (|s| - |Trim(s)|) >= 9
  }

  lemma AccountNumberValidMeaning(s: string)
    ensures AccountNumberValid(s) <==> Utf16Length(Trim(s)) >= 9
  {
    Utf16LengthTrimmed(s);
  }

  predicate IsUpperLetter(c: char) {
    'A' <= c <= 'Z'
  }

  /** `/^[A-Z]{4}0[A-Z0-9]{6}$/`. */
  predicate IfscShape(u: string) {
    |u| == 11
    && (forall i :: 0 <= i < 4 ==> IsUpperLetter(u[i]))
    && u[4] == '0'
    && (forall i :: 5 <= i < 11 ==> IsUpperLetter(u[i]) || IsDigit(u[i]))
  }

  /** The IFSC pattern, tested on the upper-cased input. */
  predicate IfscValid(s: string) {
    IfscShape(ToUpper(s))
  }

  predicate FieldValid(d: PaymentDetails, f: PaymentField) {
    match f
    case CardNumber => CardNumberValid(d.cardNumber)
    case CardExpiry => ExpiryValid(d.cardExpiry)
    case CardCvc => CvcValid(d.cardCvc)
    case AccountNumber => AccountNumberValid(d.accountNumber)
    case IfscCode => IfscValid(d.ifscCode)
  }

  /** The fields checked for a payment method. */
  function Checked(m: PaymentMethod): set<PaymentField> {
    match m
    case CreditCard => {CardNumber, CardExpiry, CardCvc}
    case BankTransfer => {AccountNumber, IfscCode}
  }

  /** The keys of the error map `validatePayment` builds. */
  function Errors(m: PaymentMethod, d: PaymentDetails): set<PaymentField> {
    set f | f in Checked(m) && !FieldValid(d, f)
  }

  // ---- properties of the validators ---------------------------------------

  /** Whitespace anywhere in the card number is ignored: "4111 1111 1111 1111"
      is as good as the sixteen digits run together. */
  lemma CardNumberIgnoresSpaces(a: string, sp: char, b: string)
    requires IsSpace(sp)
    ensures CardNumberValid(a + [sp] + b) == CardNumberValid(a + b)
  {
    StripSpacesAppend(a + [sp], b);
    StripSpacesAppend(a, [sp]);
    StripSpacesAppend(a, b);
    assert StripSpaces([sp]) == [] by {
      assert [sp][..0] == [];
    }
  }

  /** Sixteen digits with no whitespace are a valid card number, and a valid
      card number holds sixteen digits. */
  lemma CardNumberDigits(s: string)
    ensures AllDigits(s) && |s| == 16 ==> CardNumberValid(s)
    ensures CardNumberValid(s) ==> |s| >= 16
  {
    if AllDigits(s) {
      StripSpacesNone(s);
    }
  }

  /** The expiry pattern read as numbers: two digits naming a month from 1 to
      12, an optional '/', and a two-digit year. So "1225" is accepted as
      well as "12/25", and "13/25" or "00/25" is not. */
  lemma ExpiryMeaning(s: string)
    ensures ExpiryValid(s) <==>
      (|s| == 4 || (|s| == 5 && s[2] == '/'))
      && AllDigits(s[..2]) && AllDigits(s[|s| - 2..])
      && 1 <= DigitsValue(s[..2]) <= 12
  {
    if |s| == 4 || |s| == 5 {
      var m := s[..2];
      if AllDigits(m) {
        assert m[..1][..0] == [] && m[..1][0] == s[0] && m[1] == s[1];
        assert DigitsValue(m[..1]) == s[0] as int - '0' as int;
        assert DigitsValue(m) == (s[0] as int - '0' as int) * 10 + (s[1] as int - '0' as int);
      }
      assert IsDigit(s[0]) && IsDigit(s[1]) <==> AllDigits(m) by {
        assert m[0] == s[0] && m[1] == s[1];
      }
      var y := s[|s| - 2..];
      assert IsDigit(s[|s| - 2]) && IsDigit(s[|s| - 1]) <==> AllDigits(y) by {
        assert y[0] == s[|s| - 2] && y[1] == s[|s| - 1];
      }
    }
  }

  /** The IFSC check ignores letter case: a code typed in lower case passes
      exactly when its upper-case form does, and the fifth character must be
      the digit zero either way. */
  lemma IfscIgnoresCase(s: string)
    ensures IfscValid(s) <==> IfscValid(ToUpper(s))
    ensures IfscValid(s) ==> |s| == 11 && s[4] == '0'
  {
    assert ToUpper(ToUpper(s)) == ToUpper(s);
  }

  /** A run of nine or more digits is a valid account number; fewer than nine
      code units never are, whatever they are. */
  lemma AccountNumberDigits(s: string)
    ensures AllDigits(s) && |s| >= 9 ==> AccountNumberValid(s)
    ensures Utf16Length(s) < 9 ==> !AccountNumberValid(s)
  {
    if AllDigits(s) && |s| >= 9 { DigitsAccountNumber(s); }
  }

  lemma DigitsAccountNumber(s: string)
    requires AllDigits(s) && |s| >= 9
    ensures AccountNumberValid(s)
  {
    DigitsUntrimmed(s);
    DigitsOneUnitEach(s);
  }

  lemma DigitsUntrimmed(s: string)
    requires AllDigits(s) && |s| >= 1
    ensures |Trim(s)| == |s|
  {
    assert !IsSpace(s[0]) && !IsSpace(s[|s| - 1]);
    TrimPlain(s);
  }

  lemma DigitsOneUnitEach(s: string)
    requires AllDigits(s)
    ensures Utf16Length(s) == |s|
  {
    Utf16LengthBmp(s);
  }

  /** `length` counts code units: five characters above U+FFFF make ten, so
      five emoji pass the nine-character check. */
  lemma AccountNumberCountsCodeUnits()
    ensures AccountNumberValid("\U{1F600}\U{1F600}\U{1F600}\U{1F600}\U{1F600}")
  {
    var s := "\U{1F600}\U{1F600}\U{1F600}\U{1F600}\U{1F600}";
    assert Trim(s) == s by { TrimPlain(s); }
    AccountNumberValidMeaning(s);
    assert Utf16Length(s[4..]) == 2;
    assert Utf16Length(s[3..]) == 4;
    assert Utf16Length(s[2..]) == 6;
    assert Utf16Length(s[1..]) == 8;
  }

  /** A field is reported iff it belongs to the selected method and fails
      its check, so the dialog lets the payment through exactly when every
      field of that method passes. */
  lemma ErrorsMeaning(m: PaymentMethod, d: PaymentDetails)
    ensures forall f :: f in Errors(m, d) <==> f in Checked(m) && !FieldValid(d, f)
    ensures Errors(m, d) == {} <==>
      (m == CreditCard ==> CardNumberValid(d.cardNumber) && ExpiryValid(d.cardExpiry) && CvcValid(d.cardCvc))
      && (m == BankTransfer ==> AccountNumberValid(d.accountNumber) && IfscValid(d.ifscCode))
  {
    if m == CreditCard {
      if !CardNumberValid(d.cardNumber) { assert CardNumber in Errors(m, d); }
      if !ExpiryValid(d.cardExpiry) { assert CardExpiry in Errors(m, d); }
      if !CvcValid(d.cardCvc) { assert CardCvc in Errors(m, d); }
    } else {
      if !AccountNumberValid(d.accountNumber) { assert AccountNumber in Errors(m, d); }
      if !IfscValid(d.ifscCode) { assert IfscCode in Errors(m, d); }
    }
  }

  /** A set that holds exactly the failing checked fields is the error set. */
  lemma ErrorsExactly(m: PaymentMethod, d: PaymentDetails, e: set<PaymentField>)
    requires forall f :: f in e <==> f in Checked(m) && !FieldValid(d, f)
    ensures e == Errors(m, d)
  {
  }

  /** The credit-card errors, check by check. */
  lemma CreditCardErrors(d: PaymentDetails)
    ensures Errors(CreditCard, d) ==
      (if CardNumberValid(d.cardNumber) then {} else {CardNumber})
      + (if ExpiryValid(d.cardExpiry) then {} else {CardExpiry})
      + (if CvcValid(d.cardCvc) then {} else {CardCvc})
  {
    var e := (if CardNumberValid(d.cardNumber) then {} else {CardNumber})
      + (if ExpiryValid(d.cardExpiry) then {} else {CardExpiry})
      + (if CvcValid(d.cardCvc) then {} else {CardCvc});
    ErrorsExactly(CreditCard, d, e);
  }

  /** The bank-transfer errors, check by check. */
  lemma BankTransferErrors(d: PaymentDetails)
    ensures Errors(BankTransfer, d) ==
      (if AccountNumberValid(d.accountNumber) then {} else {AccountNumber})
      + (if IfscValid(d.ifscCode) then {} else {IfscCode})
  {
    var e := (if AccountNumberValid(d.accountNumber) then {} else {AccountNumber})
      + (if IfscValid(d.ifscCode) then {} else {IfscCode});
    ErrorsExactly(BankTransfer, d, e);
  }

  /** Only the selected method's fields are checked: editing a field of the
      other method leaves the errors as they were. */
  lemma OtherMethodIgnored(m: PaymentMethod, d: PaymentDetails, f: PaymentField, v: string)
    requires f !in Checked(m)
    ensures Errors(m, SetField(d, f, v)) == Errors(m, d)
  {
    var d' := SetField(d, f, v);
    forall g | g in Checked(m) ensures FieldValid(d', g) == FieldValid(d, g) {
      assert FieldValue(d', g) == FieldValue(d, g);
    }
  }

  /** The platform fee added on top of the compliance fee. */
  const PlatformFee: real := 50.0

  /** The "Total Amount" line: the compliance fee plus the platform fee. */
  function TotalAmount(task: ComplianceTask): (r: real)
    ensures r - task.estimatedAmount == PlatformFee
    ensures task.estimatedAmount >= 0.0 ==> r >= PlatformFee
  {
    task.estimatedAmount + 50.0
  }

  // ---- the dialog ---------------------------------------------------------

  /** The credit-card half of `validatePayment`: one check per field, each
      failure adding its key. */
  method CheckCreditCard(d: PaymentDetails) returns (errors: set<PaymentField>)
    ensures errors == Errors(CreditCard, d)
  {
    errors := {};
    if !CardNumberValid(d.cardNumber) { errors := errors + {CardNumber}; }
    if !ExpiryValid(d.cardExpiry) { errors := errors + {CardExpiry}; }
    if !CvcValid(d.cardCvc) { errors := errors + {CardCvc}; }
    CreditCardErrors(d);
  }

  /** The bank-transfer half of `validatePayment`. */
  method CheckBankTransfer(d: PaymentDetails) returns (errors: set<PaymentField>)
    ensures errors == Errors(BankTransfer, d)
  {
    errors := {};
    if !AccountNumberValid(d.accountNumber) { errors := errors + {AccountNumber}; }
    if !IfscValid(d.ifscCode) { errors := errors + {IfscCode}; }
    BankTransferErrors(d);
  }

  class PaymentModal {
    const task: ComplianceTask
    var isPaying: bool
    var paymentSuccess: bool
    var paymentMethod: PaymentMethod
    var details: PaymentDetails
    /** The keys of `paymentErrors`; the text under each is `ErrorText(key)`. */
    var paymentErrors: set<PaymentField>

    constructor (task: ComplianceTask)
      ensures this.task == task
      ensures !isPaying && !paymentSuccess && paymentMethod == CreditCard
      ensures details == PaymentDetails("", "", "", "", "") && paymentErrors == {}
    {
      this.task := task;
      isPaying := false;
      paymentSuccess := false;
      paymentMethod := CreditCard;
      details := PaymentDetails("", "", "", "", "");
      paymentErrors := {};
    }

    /** `validatePayment`: fills the error map for the selected method, stores
        it, and answers whether it is empty. */
    method ValidatePayment() returns (ok: bool)
      modifies this`paymentErrors
      ensures paymentErrors == Errors(paymentMethod, details)
      ensures ok <==> paymentErrors == {}
    {
      var errors: set<PaymentField>;
      if paymentMethod == CreditCard {
        errors := CheckCreditCard(details);
      } else {
        errors := CheckBankTransfer(details);
      }
      paymentErrors := errors;
      ok := errors == {};
    }

    /** `handleConfirmPayment`: nothing happens unless validation passes;
        otherwise the payment runs (its two timers taken as immediate steps)
        and ends in the success state, after which the parent's
        `onPaymentSuccess` is called, signalled by `paid`. */
    method HandleConfirmPayment() returns (paid: bool)
      modifies this`paymentErrors, this`isPaying, this`paymentSuccess
      ensures paymentErrors == Errors(paymentMethod, details)
      ensures paid <==> paymentErrors == {}
      ensures paid ==> !isPaying && paymentSuccess
      ensures !paid ==> isPaying == old(isPaying) && paymentSuccess == old(paymentSuccess)
    {
      var ok := ValidatePayment();
      if !ok {
        paid := false;
        return;
      }
      isPaying := true;
      isPaying := false;
      paymentSuccess := true;
      paid := true;
    }

    /** `handlePaymentDetailChange`: one field takes the typed value. */
    method HandlePaymentDetailChange(f: PaymentField, v: string)
      modifies this`details
      ensures FieldValue(details, f) == v
      ensures forall g :: g != f ==> FieldValue(details, g) == FieldValue(old(details), g)
    {
      details := SetField(details, f, v);
    }

    /** The two method buttons; the errors already shown stay until the next
        validation. */
    method SelectMethod(m: PaymentMethod)
      modifies this`paymentMethod
      ensures paymentMethod == m
    {
      paymentMethod := m;
    }
  }
}
