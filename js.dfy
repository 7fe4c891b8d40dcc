/** JavaScript values as they arrive in a parsed JSON request body, and the
    coercions the server routes apply to them: truthiness, `a || b`, property
    access, `Number(v)`, `parseFloat(v)` and `parseInt(v)`. */
module Js {
  import opened Wrappers
  import opened Text

  datatype Value =
    | Undefined
    | Null
    | Bool(b: bool)
    | Num(n: real)
    | NaN
    | Str(s: string)
    | Arr(elems: seq<Value>)
    | Obj(fields: map<string, Value>)

  /** `if (v)`: `undefined`, `null`, `false`, `0`, `NaN` and `''` are falsy. */
  predicate Truthy(v: Value) {
    match v
    case Undefined => false
    case Null => false
    case Bool(b) => b
    case Num(n) => n != 0.0
    case NaN => false
    case Str(s) => s != ""
    case Arr(_) => true
    case Obj(_) => true
  }

  /** `v || fallback`. */
  function Or(v: Value, fallback: Value): (r: Value)
    ensures Truthy(v) ==> r == v
    ensures !Truthy(v) ==> r == fallback
  {
    if Truthy(v) then v else fallback
  }

  /** `v.key`: reading a property of `undefined` or `null` throws (`None`); a
      missing key, or any key of a primitive, reads as `undefined`. */
  function Get(v: Value, key: string): (r: Option<Value>)
    ensures r.None? <==> v.Undefined? || v.Null?
    ensures v.Obj? && key in v.fields ==> r == Some(v.fields[key])
  {
    match v
    case Undefined => None
    case Null => None
    case Obj(m) => Some(if key in m then m[key] else Undefined)
    case _ => Some(Undefined)
  }

  function NumOrNaN(r: Option<real>): Value {
    match r
    case Some(x) => Num(x)
    case None => NaN
  }

  /** `Number(v)`. An array converts through its text: `[]` is 0 and a
      one-element array converts as its element (strings and numbers; `[null]`
      is 0); anything else is `NaN`. */
  function ToNumber(v: Value): (r: Value)
    ensures r.Num? || r.NaN?
  {
    match v
    case Undefined => NaN
    case Null => Num(0.0)
    case Bool(b) => Num(if b then 1.0 else 0.0)
    case Num(n) => Num(n)
    case NaN => NaN
    case Str(s) => NumOrNaN(StringToNumber(s))
    case Arr(e) =>
      if |e| == 0 then Num(0.0)
      else if |e| == 1 then
        (match e[0]
         case Null => Num(0.0)
         case Undefined => Num(0.0)
         case Num(n) => Num(n)
         case Str(s) => NumOrNaN(StringToNumber(s))
         case Arr(_) => ToNumber(e[0])
         case _ => NaN)
      else NaN
    case Obj(_) => NaN
  }

  /** `parseFloat(v)`: the value is read as text. A number prints as text that
      reads back as itself, and an array prints as its elements joined by
      commas, so it reads as its first element (a comma ends every number);
      every other value prints as text that does not start with a number. */
  function ParseFloatOf(v: Value): (r: Value)
    ensures r.Num? || r.NaN?
  {
    match v
    case Num(n) => Num(n)
    case Str(s) => NumOrNaN(ParseFloat(s))
    case Arr(e) => if |e| == 0 then NaN else ParseFloatOf(e[0])
    case _ => NaN
  }

  /** `parseInt(x)` of a number reads the text `String(x)` prints: decimal
      notation from 1e-6 up to 1e21, where it keeps the integer part, and
      exponent notation outside that range, where it keeps only the digit
      before the exponent. */
  function ParseIntOfNumber(x: real): (r: int)
    ensures x > 0.0 ==> r >= 0
    ensures x < 0.0 ==> r <= 0
    ensures 0.000001 <= x < 1000000000000000000000.0 ==> r == x.Floor
    ensures -1000000000000000000000.0 < x <= -0.000001 ==> r == -((-x).Floor)
    ensures 0.0 < x < 0.000001 || x >= 1000000000000000000000.0 ==> 1 <= r <= 9
    ensures -0.000001 < x < 0.0 || x <= -1000000000000000000000.0 ==> -9 <= r <= -1
  {
    var m := if x < 0.0 then -x else x;
    var d :=
      if m == 0.0 then 0
      else if m < 0.000001 then FirstSignificantDigit(m)
      else if m >= 1000000000000000000000.0 then LeadingDigit(m.Floor)
      else m.Floor;
    if x < 0.0 then -d else d
  }

  function IntOrNaN(r: Option<int>): Value {
    match r
    case Some(i) => Num(i as real)
    case None => NaN
  }

  /** `parseInt(v)` with no radix: the value is read as text, as for
      `parseFloat`, and the text's leading integer is decimal or, after a
      `0x` or `0X` prefix, hexadecimal. */
  function ParseIntOf(v: Value): (r: Value)
    ensures r.Num? || r.NaN?
    ensures r.Num? ==> r.n == r.n.Floor as real
  {
    match v
    case Num(n) => Num(ParseIntOfNumber(n) as real)
    case Str(s) => IntOrNaN(ParseIntAuto(s))
    case Arr(e) => if |e| == 0 then NaN else ParseIntOf(e[0])
    case _ => NaN
  }

  /** A run of digits followed by anything that is not a digit converts to
      the value of the digits, unless the text starts with `0x` or `0X`. */
  lemma NumberOfDigits(ds: string, tail: string)
    requires |ds| >= 1 && AllDigits(ds)
    requires tail == [] || !IsDigit(tail[0])
    requires !HexPrefixed(ds + tail)
    ensures ParseIntOf(Str(ds + tail)) == Num(DigitsValue(ds) as real)
  {
    ParseIntDigits(ds, tail);
  }

  /** Without a radix, `0x` switches to hexadecimal. */
  lemma HexTextExample()
    ensures ParseIntOf(Str("0x1A")) == Num(26.0)
  {
    var s := "0x1A";
    assert s[2..] == "1A" + "";
    assert RadixDigitsValue("1A", 16) == Some(26) by {
      assert "1A"[..1] == "1" && "1"[..0] == "";
    }
    HexParseInt(s, "1A", "");
  }

  /** `0x` followed by no hexadecimal digit is `NaN`. */
  lemma HexWithoutDigitsExample()
    ensures ParseIntOf(Str("0xg")) == NaN
  {
    HexWithoutDigits("0xg");
  }

  /** An array prints as its elements joined by commas, and a comma ends
      every number, so both parsers read an array as its first element. */
  lemma ArrayReadsFirst(x: Value, rest: seq<Value>)
    ensures ParseIntOf(Arr([x] + rest)) == ParseIntOf(x)
    ensures ParseFloatOf(Arr([x] + rest)) == ParseFloatOf(x)
  {
    assert ([x] + rest)[0] == x;
  }

  /** `parseInt(["12", 3])` reads `"12,3"`, which is 12. */
  lemma ArrayOfDigits(ds: string, tail: string, rest: seq<Value>)
    requires |ds| >= 1 && AllDigits(ds)
    requires tail == [] || !IsDigit(tail[0])
    requires !HexPrefixed(ds + tail)
    ensures ParseIntOf(Arr([Str(ds + tail)] + rest)) == Num(DigitsValue(ds) as real)
  {
    NumberOfDigits(ds, tail);
    ArrayReadsFirst(Str(ds + tail), rest);
  }

  /** `parseFloat(["1e", "x"])` reads `"1e,x"`, which is 1: the bare `e` and
      the comma after it are not part of the number. */
  lemma ArrayOfIncompleteExponent(ds: string, rest: seq<Value>)
    requires |ds| >= 1 && AllDigits(ds)
    ensures ParseFloatOf(Arr([Str(ds + "e")] + rest)) == Num(DigitsValue(ds) as real)
  {
    IncompleteExponent(ds + "e", ds);
    ArrayReadsFirst(Str(ds + "e"), rest);
  }

  /** `String(5e-7)` is `"5e-7"`, so `parseInt` reads 5. */
  lemma SmallNumberExample()
    ensures ParseIntOf(Num(0.0000005)) == Num(5.0)
  {
  }

  /** `String(2e21)` is `"2e+21"`, so `parseInt` reads 2. */
  lemma LargeNumberExample()
    ensures ParseIntOf(Num(2000000000000000000000.0)) == Num(2.0)
  {
    LeadingDigitScaled(2, 21);
    assert Pow10(7) == 10000000;
    Pow10Add(7, 7);
    Pow10Add(14, 7);
  }
}
