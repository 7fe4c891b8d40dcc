/** The JavaScript string and number primitives the application relies on:
    `trim`, `\s`, ASCII case mapping, `includes`/`indexOf`, `split`,
    string comparison with `<`, `parseInt`, `parseFloat`, `Number(...)`,
    `String(n)` and `padStart`. */
module Text {
  import opened Wrappers

  /** JavaScript's WhiteSpace and LineTerminator code points: what `\s`
      matches and what `trim` strips. */
  predicate IsSpace(c: char) {
    c == '\t' || c == '\n' || c == '\U{000B}' || c == '\U{000C}' || c == '\r' || c == ' '
    || c == '\U{00A0}' || c == '\U{1680}' || ('\U{2000}' <= c <= '\U{200A}')
    || c == '\U{2028}' || c == '\U{2029}' || c == '\U{202F}' || c == '\U{205F}'
    || c == '\U{3000}' || c == '\U{FEFF}'
  }

  /** The code points at which `^` and `$` match in a multiline regular expression. */
  predicate IsLineTerminator(c: char) {
    c == '\n' || c == '\r' || c == '\U{2028}' || c == '\U{2029}'
  }

  predicate AllSpace(s: string) {
    forall i :: 0 <= i < |s| ==> IsSpace(s[i])
  }

  /** The string with its leading whitespace removed. */
  function TrimStart(s: string): (r: string)
    ensures |r| <= |s| && r == s[|s| - |r|..]
    ensures AllSpace(s[..|s| - |r|])
    ensures r == [] || !IsSpace(r[0])
  {
    if s != [] && IsSpace(s[0]) then
      var r := TrimStart(s[1..]);
      assert s[..|s| - |r|] == [s[0]] + s[1..][..|s| - 1 - |r|];
      r
    else s
  }

  /** The string with its trailing whitespace removed. */
  function TrimEnd(s: string): (r: string)
    ensures |r| <= |s| && r == s[..|r|]
    ensures AllSpace(s[|r|..])
    ensures r == [] || !IsSpace(r[|r| - 1])
  {
    if s != [] && IsSpace(s[|s| - 1]) then
      var r := TrimEnd(s[..|s| - 1]);
      assert s[|r|..] == s[..|s| - 1][|r|..] + [s[|s| - 1]];
      r
    else s
  }

  /** `String.prototype.trim`. */
  function Trim(s: string): string {
    TrimEnd(TrimStart(s))
  }

  lemma {:induction false} AllSpaceTrimStart(s: string)
    requires AllSpace(s)
    ensures TrimStart(s) == []
  {
    if s != [] { AllSpaceTrimStart(s[1..]); }
  }

  /** A string is blank after trimming exactly when every character is whitespace. */
  lemma TrimEmptyIff(s: string)
    ensures Trim(s) == [] <==> AllSpace(s)
  {
    var t := TrimStart(s);
    if AllSpace(s) { AllSpaceTrimStart(s); }
    if Trim(s) == [] {
      assert AllSpace(t[0..]) && t[0..] == t;
      assert t == [];
      assert s[..|s|] == s;
    }
  }

  function LowerChar(c: char): char {
    if 'A' <= c <= 'Z' then (c as int + 32) as char else c
  }

  function UpperChar(c: char): char {
    if 'a' <= c <= 'z' then (c as int - 32) as char else c
  }

  /** `toLowerCase`, on the ASCII letters. */
  function ToLower(s: string): (r: string)
    ensures |r| == |s|
  {
    seq(|s|, i requires 0 <= i < |s| => LowerChar(s[i]))
  }

  /** `toUpperCase`, on the ASCII letters. */
  function ToUpper(s: string): (r: string)
    ensures |r| == |s|
  {
    seq(|s|, i requires 0 <= i < |s| => UpperChar(s[i]))
  }

  predicate OccursAt(s: string, q: string, k: int) {
    0 <= k && k + |q| <= |s| && s[k..k + |q|] == q
  }

  /** The first position at or after `from` where `q` occurs in `s` (`indexOf`). */
  function IndexOfFrom(s: string, q: string, from: nat): (r: Option<nat>)
    decreases |s| - from
    ensures r.Some? ==> from <= r.value && OccursAt(s, q, r.value)
    ensures r.Some? ==> forall k :: from <= k < r.value ==> !OccursAt(s, q, k)
    ensures r.None? ==> forall k :: from <= k ==> !OccursAt(s, q, k)
  {
    if from + |q| > |s| then None
    else if s[from..from + |q|] == q then Some(from)
    else IndexOfFrom(s, q, from + 1)
  }

  /** `s.includes(q)`. */
  function Includes(s: string, q: string): (r: bool)
    ensures r <==> exists k :: OccursAt(s, q, k)
  {
    var i := IndexOfFrom(s, q, 0);
    if i.Some? then assert OccursAt(s, q, i.value); true else false
  }

  predicate StartsWith(s: string, p: string) {
    |p| <= |s| && s[..|p|] == p
  }

  /** How many UTF-16 code units `c` takes: two (a surrogate pair) for a code
      point above U+FFFF, one otherwise. */
  function CodeUnits(c: char): nat {
    if c as int > 0xFFFF then 2 else 1
  }

  /** `s.length`, which counts UTF-16 code units rather than code points. */
  function Utf16Length(s: string): (r: nat)
    ensures |s| <= r <= 2 * |s|
  {
    if s == [] then 0 else CodeUnits(s[0]) + Utf16Length(s[1..])
  }

  lemma {:induction false} Utf16LengthAppend(a: string, b: string)
    ensures Utf16Length(a + b) == Utf16Length(a) + Utf16Length(b)
  {
    if a == [] {
      assert a + b == b;
    } else {
      assert (a + b)[0] == a[0] && (a + b)[1..] == a[1..] + b;
      Utf16LengthAppend(a[1..], b);
    }
  }

  /** Text made only of code points up to U+FFFF has as many code units as
      characters. */
  lemma {:induction false} Utf16LengthBmp(s: string)
    requires forall i :: 0 <= i < |s| ==> s[i] as int <= 0xFFFF
    ensures Utf16Length(s) == |s|
  {
    if s != [] { Utf16LengthBmp(s[1..]); }
  }

  /** Leading whitespace is one code unit per character. */
  lemma {:induction false} Utf16LengthTrimStart(s: string)
    ensures Utf16Length(TrimStart(s)) == Utf16Length(s) - (|s| - |TrimStart(s)|)
  {
    if s != [] && IsSpace(s[0]) {
      Utf16LengthTrimStart(s[1..]);
    }
  }

  /** Trailing whitespace is one code unit per character. */
  lemma {:induction false} Utf16LengthTrimEnd(t: string)
    ensures Utf16Length(TrimEnd(t)) == Utf16Length(t) - (|t| - |TrimEnd(t)|)
  {
    if t != [] && IsSpace(t[|t| - 1]) {
      var init := t[..|t| - 1];
      Utf16LengthTrimEnd(init);
      assert t == init + [t[|t| - 1]];
      Utf16LengthAppend(init, [t[|t| - 1]]);
    }
  }

  /** Trimming takes away one code unit per character removed. */
  lemma Utf16LengthTrimmed(s: string)
    ensures Utf16Length(Trim(s)) == Utf16Length(s) - (|s| - |Trim(s)|)
  {
    Utf16LengthTrimStart(s);
    Utf16LengthTrimEnd(TrimStart(s));
  }

  /** The place of `c` in UTF-16 code-unit order. Code points up to U+D7FF
      keep their place; a code point above U+FFFF starts with a high surrogate
      (U+D800..U+DBFF), so it sorts after those and before U+E000..U+FFFF. */
  function UnitOrderKey(c: char): (r: int)
    ensures c as int < 0xD800 ==> r == c as int
    ensures c as int > 0xFFFF ==> 0xD800 <= r < 0x10D800
    ensures 0xD800 <= c as int <= 0xFFFF ==> 0x10D800 <= r
  {
    if c as int < 0xD800 then c as int
    else if c as int <= 0xFFFF then c as int + 0x100000
    else 0xD800 + (c as int - 0x10000)
  }

  /** Distinct characters have distinct code-unit sequences. */
  lemma UnitOrderKeyInjective(c: char, d: char)
    requires c != d
    ensures UnitOrderKey(c) != UnitOrderKey(d)
  {
    assert c as int != d as int;
  }

  /** JavaScript's `a < b` on strings: code unit by code unit, a proper prefix first. */
  predicate StrLess(a: string, b: string) {
    if b == [] then false
    else if a == [] then true
    else if a[0] != b[0] then UnitOrderKey(a[0]) < UnitOrderKey(b[0])
    else StrLess(a[1..], b[1..])
  }

  /** U+FFFD sorts after U+1F600 in code-unit order, though its code point is
      smaller. */
  lemma CodeUnitOrderExample()
    ensures StrLess("\U{1F600}", "\U{FFFD}") && !StrLess("\U{FFFD}", "\U{1F600}")
  {
  }

  lemma {:induction false} StrLessIrreflexive(a: string)
    ensures !StrLess(a, a)
  {
    if a != [] { StrLessIrreflexive(a[1..]); }
  }

  lemma {:induction false} StrLessTransitive(a: string, b: string, c: string)
    requires StrLess(a, b) && StrLess(b, c)
    ensures StrLess(a, c)
  {
    if a != [] && a[0] == b[0] && b[0] == c[0] {
      StrLessTransitive(a[1..], b[1..], c[1..]);
    }
  }

  lemma {:induction false} StrLessTotal(a: string, b: string)
    ensures a == b || StrLess(a, b) || StrLess(b, a)
  {
    if a != [] && b != [] && a[0] != b[0] {
      UnitOrderKeyInjective(a[0], b[0]);
    }
    if a != [] && b != [] && a[0] == b[0] {
      StrLessTotal(a[1..], b[1..]);
      if a[1..] == b[1..] {
        assert a == [a[0]] + a[1..] && b == [b[0]] + b[1..];
      }
    }
  }

  // ---- splitting -------------------------------------------------------

  /** `s.split(sep)` for a separator given as a character class. */
  function Split(s: string, isSep: char -> bool): (r: seq<string>)
    ensures |r| >= 1
    ensures forall k, i :: 0 <= k < |r| && 0 <= i < |r[k]| ==> !isSep(r[k][i])
  {
    if s == [] then [[]]
    else
      var rest := Split(s[1..], isSep);
      if isSep(s[0]) then [[]] + rest
      else
        var r := [[s[0]] + rest[0]] + rest[1..];
        assert forall k :: 1 <= k < |r| ==> r[k] == rest[k];
        r
  }

  /** `parts.join(sep)`. */
  function Join(parts: seq<string>, sep: char): string
    requires |parts| >= 1
  {
    if |parts| == 1 then parts[0] else parts[0] + [sep] + Join(parts[1..], sep)
  }

  /** Splitting on one character and joining on it again gives back the string. */
  lemma {:induction false} JoinSplit(s: string, sep: char)
    ensures Join(Split(s, c => c == sep), sep) == s
  {
    if s != [] {
      JoinSplit(s[1..], sep);
      var rest := Split(s[1..], c => c == sep);
      if s[0] != sep {
        var r := Split(s, c => c == sep);
        assert r[1..] == rest[1..];
        if |rest| == 1 {
          assert s == [s[0]] + s[1..];
        } else {
          assert Join(r, sep) == [s[0]] + rest[0] + [sep] + Join(rest[1..], sep);
          assert s == [s[0]] + s[1..];
        }
      } else {
        assert s == [s[0]] + s[1..];
      }
    }
  }

  // ---- digits and numbers ------------------------------------------------

  predicate IsDigit(c: char) {
    '0' <= c <= '9'
  }

  predicate AllDigits(s: string) {
    forall i :: 0 <= i < |s| ==> IsDigit(s[i])
  }

  function DigitChar(d: nat): char
    requires d < 10
  {
    ('0' as int + d) as char
  }

  /** The value of a string of decimal digits. */
  function DigitsValue(s: string): nat
    requires AllDigits(s)
  {
    if s == [] then 0
    else DigitsValue(s[..|s| - 1]) * 10 + (s[|s| - 1] as int - '0' as int)
  }

  /** The longest prefix of `s` made of decimal digits. */
  function LeadingDigits(s: string): (r: string)
    ensures |r| <= |s| && r == s[..|r|] && AllDigits(r)
    ensures |r| == |s| || !IsDigit(s[|r|])
  {
    if s != [] && IsDigit(s[0]) then
      var t := LeadingDigits(s[1..]);
      assert [s[0]] + t == s[..1 + |t|];
      [s[0]] + t
    else []
  }

  /** `String(n)` for a non-negative integer: its decimal digits, no leading zero. */
  function NatToString(n: nat): (r: string)
    ensures |r| >= 1 && AllDigits(r) && DigitsValue(r) == n
    ensures r[0] == '0' ==> n == 0 && r == "0"
  {
    if n < 10 then [DigitChar(n)]
    else
      var r := NatToString(n / 10) + [DigitChar(n % 10)];
      assert r[..|r| - 1] == NatToString(n / 10);
      r
  }

  /** `s.padStart(width, c)`. */
  function PadStart(s: string, width: nat, c: char): (r: string)
  {
    if |s| >= width then s else seq(width - |s|, _ => c) + s
  }

  /** Leading zeros do not change the value of a digit string. */
  lemma {:induction false} LeadingZerosValue(z: nat, s: string)
    requires AllDigits(s)
    ensures AllDigits(seq(z, _ => '0') + s)
    ensures DigitsValue(seq(z, _ => '0') + s) == DigitsValue(s)
  {
    var p := seq(z, _ => '0') + s;
    if s == [] {
      ZerosValue(z);
      assert p == seq(z, _ => '0');
    } else {
      LeadingZerosValue(z, s[..|s| - 1]);
      assert p[..|p| - 1] == seq(z, _ => '0') + s[..|s| - 1];
    }
  }

  lemma {:induction false} ZerosValue(z: nat)
    ensures AllDigits(seq(z, _ => '0'))
    ensures DigitsValue(seq(z, _ => '0')) == 0
  {
    if z > 0 {
      ZerosValue(z - 1);
      assert seq(z, _ => '0')[..z - 1] == seq(z - 1, _ => '0');
    }
  }

  /** The optional sign at the head of `t` and what follows it. */
  function SignAndBody(t: string): (bool, string) {
    if |t| > 0 && (t[0] == '+' || t[0] == '-') then (t[0] == '-', t[1..]) else (false, t)
  }

  /** `parseInt(s, 10)`: leading whitespace, an optional sign, then the longest
      run of digits; `None` stands for `NaN` (no digit after the sign). */
  function ParseInt(s: string): Option<int> {
    var (neg, body) := SignAndBody(TrimStart(s));
    var ds := LeadingDigits(body);
    if ds == [] then None
    else Some(if neg then -(DigitsValue(ds) as int) else DigitsValue(ds))
  }

  lemma {:induction false} LeadingDigitsOf(ds: string, tail: string)
    requires AllDigits(ds)
    requires tail == [] || !IsDigit(tail[0])
    ensures LeadingDigits(ds + tail) == ds
  {
    if ds != [] {
      LeadingDigitsOf(ds[1..], tail);
      assert (ds + tail)[1..] == ds[1..] + tail;
      assert ds == [ds[0]] + ds[1..];
    } else {
      assert ds + tail == tail;
    }
  }

  /** A digit string followed by a non-digit (or nothing) parses to its value. */
  lemma ParseIntDigits(ds: string, tail: string)
    requires |ds| >= 1 && AllDigits(ds)
    requires tail == [] || !IsDigit(tail[0])
    ensures SignAndBody(TrimStart(ds + tail)) == (false, ds + tail)
    ensures ParseInt(ds + tail) == Some(DigitsValue(ds))
  {
    var s := ds + tail;
    assert s[0] == ds[0] && IsDigit(s[0]);
    assert !IsSpace(s[0]);
    assert TrimStart(s) == s;
    var sb := SignAndBody(s);
    assert sb.0 == false && sb.1 == s;
    LeadingDigitsOf(ds, tail);
  }

  function Pow10(k: nat): (r: nat)
    ensures r >= 1
  {
    if k == 0 then 1 else 10 * Pow10(k - 1)
  }

  /** `v × 10^e`, for a whole exponent of either sign. */
  function Scale(v: real, e: int): real
    decreases if e >= 0 then e else -e
  {
    if e == 0 then v
    else if e > 0 then Scale(v, e - 1) * 10.0
    else Scale(v, e + 1) / 10.0
  }

  /** A complete exponent part at the head of `t` (`e` or `E`, an optional
      sign, at least one digit): its value and how many characters it takes;
      `None` when `t` does not start with one. */
  function ExponentScan(t: string): (r: Option<(int, nat)>)
    ensures r.Some? ==> 2 <= r.value.1 <= |t|
  {
    if |t| == 0 || (t[0] != 'e' && t[0] != 'E') then None
    else
      var (neg, body) := SignAndBody(t[1..]);
      var ds := LeadingDigits(body);
      if ds == [] then None
      else
        var e := if neg then -(DigitsValue(ds) as int) else DigitsValue(ds) as int;
        Some((e, |t| - |body| + |ds|))
  }

  /** The unsigned digits and optional fraction at the head of `body`: their
      value and how many characters they take, or `None` when there is no
      digit on either side of the point. */
  function MantissaScan(body: string): (r: Option<(real, nat)>)
    ensures r.Some? ==> 1 <= r.value.1 <= |body|
  {
    var ip := LeadingDigits(body);
    var rest := body[|ip|..];
    var hasPoint := |rest| > 0 && rest[0] == '.';
    var fp := if hasPoint then LeadingDigits(rest[1..]) else [];
    if ip == [] && fp == [] then None
    else Some((DigitsValue(ip) as real + Fraction(fp), |ip| + (if hasPoint then 1 + |fp| else 0)))
  }

  /** The value of the digits after a decimal point: `0.d₁d₂…` is a tenth of
      `d₁.d₂…`. */
  function Fraction(fp: string): real
    requires AllDigits(fp)
  {
    if fp == [] then 0.0 else ((fp[0] as int - '0' as int) as real + Fraction(fp[1..])) / 10.0
  }

  /** The exponent at the head of `t` and its length; no exponent counts as `e0`
      taking no characters. */
  function ExponentOrZero(t: string): (r: (int, nat))
    ensures r.1 <= |t|
  {
    match ExponentScan(t)
    case Some(x) => x
    case None => (0, 0)
  }

  /** The longest unsigned decimal literal (digits, optional fraction,
      optional exponent) at the head of `body`. */
  function UnsignedScan(body: string): (r: Option<(real, nat)>)
    ensures r.Some? ==> 1 <= r.value.1 <= |body|
  {
    match MantissaScan(body)
    case None => None
    case Some((m, len)) =>
      var (e, expLen) := ExponentOrZero(body[len..]);
      Some((Scale(m, e), len + expLen))
  }

  /** The longest decimal literal (sign, digits, optional fraction, optional
      exponent) at the head of `t`: its value and how many characters it takes,
      or `None` when there is no digit before the exponent. */
  function DecimalScan(t: string): (r: Option<(real, nat)>)
    ensures r.Some? ==> 1 <= r.value.1 <= |t|
  {
    var (neg, body) := SignAndBody(t);
    match UnsignedScan(body)
    case None => None
    case Some((v, n)) => Some((if neg then -v else v, |t| - |body| + n))
  }

  /** `parseFloat(s)`; `None` stands for `NaN`. */
  function ParseFloat(s: string): Option<real> {
    match DecimalScan(TrimStart(s))
    case None => None
    case Some((v, _)) => Some(v)
  }

  /** The radix a literal prefix `0x`, `0o` or `0b` selects (either case), or 0. */
  function RadixOf(c: char): nat {
    if c == 'x' || c == 'X' then 16
    else if c == 'o' || c == 'O' then 8
    else if c == 'b' || c == 'B' then 2
    else 0
  }

  /** The value of a digit or letter in radix 36; 36 for any other character. */
  function DigitValue(c: char): (r: nat)
    ensures r <= 36
  {
    if '0' <= c <= '9' then c as int - '0' as int
    else if 'a' <= c <= 'z' then c as int - 'a' as int + 10
    else if 'A' <= c <= 'Z' then c as int - 'A' as int + 10
    else 36
  }

  /** The value of `ds` read in `radix`, or `None` when a character is not
      one of its digits. */
  function RadixDigitsValue(ds: string, radix: nat): (r: Option<nat>)
    ensures r.Some? <==> forall i :: 0 <= i < |ds| ==> DigitValue(ds[i]) < radix
  {
    if ds == [] then Some(0)
    else
      var d := DigitValue(ds[|ds| - 1]);
      match RadixDigitsValue(ds[..|ds| - 1], radix)
      case None => None
      case Some(v) => if d < radix then Some(v * radix + d) else None
  }

  /** `Number(s)` for a string: its value is read from the trimmed text. */
  function StringToNumber(s: string): Option<real> {
    NumberOfTrimmed(Trim(s))
  }

  /** `Number` of trimmed text: blank is 0; text starting `0x`, `0o` or `0b`
      must be a whole unsigned integer in that radix; otherwise the whole text
      must be one decimal literal; `None` stands for `NaN`. */
  function NumberOfTrimmed(t: string): Option<real> {
    if t == [] then Some(0.0)
    else if |t| >= 2 && t[0] == '0' && RadixOf(t[1]) != 0 then
      if |t| == 2 then None
      else match RadixDigitsValue(t[2..], RadixOf(t[1]))
        case Some(v) => Some(v as real)
        case None => None
    else match DecimalScan(t)
      case Some((v, n)) => if n == |t| then Some(v) else None
      case None => None
  }

  /** Text without whitespace at either end is left alone by trimming. */
  lemma TrimPlain(s: string)
    requires |s| >= 1 && !IsSpace(s[0]) && !IsSpace(s[|s| - 1])
    ensures TrimStart(s) == s && Trim(s) == s
  {
  }

  /** On text that trimming leaves alone, `Number` reads the text as it is. */
  lemma NumberOfPlain(s: string, v: Option<real>)
    requires Trim(s) == s && NumberOfTrimmed(s) == v
    ensures StringToNumber(s) == v
  {
  }

  /** On text without leading whitespace, `parseFloat` reads the literal at
      its head. */
  lemma ParseFloatOfPlain(s: string)
    requires TrimStart(s) == s
    ensures ParseFloat(s) == match DecimalScan(s) case Some((v, _)) => Some(v) case None => None
  {
  }

  /** Digits followed by something that is neither a digit nor a point form
      a whole-number mantissa. */
  lemma MantissaOfDigits(ds: string, tail: string)
    requires |ds| >= 1 && AllDigits(ds)
    requires tail == [] || (!IsDigit(tail[0]) && tail[0] != '.')
    ensures MantissaScan(ds + tail) == Some((DigitsValue(ds) as real, |ds|))
  {
    LeadingDigitsOf(ds, tail);
    assert (ds + tail)[|ds|..] == tail;
  }

  /** A complete exponent `e<digits>` or `e-<digits>`. */
  lemma ExponentOfDigits(neg: bool, es: string)
    requires |es| >= 1 && AllDigits(es)
    ensures var x := (if neg then "e-" else "e") + es;
      ExponentOrZero(x) == (if neg then -(DigitsValue(es) as int) else DigitsValue(es) as int, |x|)
  {
    var x := (if neg then "e-" else "e") + es;
    var body := x[1..];
    if neg {
      assert body == "-" + es;
      assert SignAndBody(body) == (true, es);
    } else {
      assert body == es;
      assert SignAndBody(body) == (false, es);
    }
    LeadingDigitsOf(es, []);
    assert es + [] == es;
  }

  /** A mantissa followed by an exponent (or by none) is one unsigned literal. */
  lemma UnsignedOf(body: string, m: real, len: nat, e: int, expLen: nat)
    requires MantissaScan(body) == Some((m, len))
    requires ExponentOrZero(body[len..]) == (e, expLen)
    ensures UnsignedScan(body) == Some((Scale(m, e), len + expLen))
  {
  }

  /** A literal that starts with a digit has no sign. */
  lemma UnsignedHead(t: string)
    requires |t| >= 1 && IsDigit(t[0])
    ensures DecimalScan(t) == UnsignedScan(t)
  {
  }

  /** A leading minus negates the literal that follows it. */
  lemma NegatedHead(t: string)
    requires |t| >= 1 && t[0] == '-'
    ensures DecimalScan(t) == match UnsignedScan(t[1..]) case Some((v, n)) => Some((-v, n + 1)) case None => None
  {
  }

  /** Digits, then text that starts neither a fraction nor more digits, scan
      as the digits' value scaled by whatever exponent that text starts with. */
  lemma DigitsThenExponent(s: string, ds: string, x: string, e: int, expLen: nat)
    requires |ds| >= 1 && AllDigits(ds) && s == ds + x
    requires x == [] || (!IsDigit(x[0]) && x[0] != '.')
    requires ExponentOrZero(x) == (e, expLen)
    ensures DecimalScan(s) == Some((Scale(DigitsValue(ds) as real, e), |ds| + expLen))
  {
    DigitsThenExponentUnsigned(s, ds, x, e, expLen);
    assert IsDigit(s[0]) by { assert s[0] == ds[0]; }
    UnsignedHead(s);
  }

  /** The unsigned half of `DigitsThenExponent`. */
  lemma DigitsThenExponentUnsigned(s: string, ds: string, x: string, e: int, expLen: nat)
    requires |ds| >= 1 && AllDigits(ds) && s == ds + x
    requires x == [] || (!IsDigit(x[0]) && x[0] != '.')
    requires ExponentOrZero(x) == (e, expLen)
    ensures UnsignedScan(s) == Some((Scale(DigitsValue(ds) as real, e), |ds| + expLen))
  {
    MantissaOfDigits(ds, x);
    assert s[|ds|..] == x;
    UnsignedOf(s, DigitsValue(ds) as real, |ds|, e, expLen);
  }

  /** Text that starts with a digit and not with a radix prefix, and is one
      whole decimal literal, is what `Number` reads. */
  lemma DecimalWhole(s: string, v: real)
    requires |s| >= 2 ==> s[0] != '0' || RadixOf(s[1]) == 0
    requires DecimalScan(s) == Some((v, |s|))
    ensures NumberOfTrimmed(s) == Some(v)
  {
  }

  /** A whole exponent part: `e` or `E`, then the rest of `x`, all of it
      read as the exponent `e`. */
  predicate WholeExponent(x: string, e: int) {
    |x| >= 2 && (x[0] == 'e' || x[0] == 'E') && ExponentOrZero(x) == (e, |x|)
  }

  /** A whole exponent part ends with a digit. */
  lemma WholeExponentEndsInDigit(x: string, e: int)
    requires WholeExponent(x, e)
    ensures IsDigit(x[|x| - 1])
  {
    var body := SignAndBody(x[1..]).1;
    var digits := LeadingDigits(body);
    assert |x| - |body| + |digits| == |x|;
    assert x[|x| - 1] == digits[|digits| - 1];
  }

  /** Digits, then an exponent part, have no whitespace at either end. */
  lemma ScientificPlain(s: string, ds: string, x: string)
    requires |ds| >= 1 && AllDigits(ds) && s == ds + x
    requires |x| >= 2 && IsDigit(x[|x| - 1])
    ensures TrimStart(s) == s && Trim(s) == s
  {
    assert s[0] == ds[0] && s[|s| - 1] == x[|x| - 1];
    TrimPlain(s);
  }

  /** Digits, then an exponent part, do not start a radix literal. */
  lemma ScientificNotRadix(s: string, ds: string, x: string)
    requires |ds| >= 1 && AllDigits(ds) && s == ds + x
    requires |x| >= 1 && (x[0] == 'e' || x[0] == 'E')
    ensures |s| >= 2 ==> s[0] != '0' || RadixOf(s[1]) == 0
  {
    if |ds| == 1 { assert s[1] == x[0]; } else { assert s[1] == ds[1] && IsDigit(ds[1]); }
  }

  /** Digits, then a whole exponent, read whole: `Number` gives the digits'
      value scaled by the power of ten. */
  lemma ScientificNumber(s: string, ds: string, x: string, e: int)
    requires |ds| >= 1 && AllDigits(ds) && s == ds + x && WholeExponent(x, e)
    ensures StringToNumber(s) == Some(Scale(DigitsValue(ds) as real, e))
  {
    var v := Scale(DigitsValue(ds) as real, e);
    assert NumberOfTrimmed(s) == Some(v) by { ScientificWhole(s, ds, x, e); }
    assert Trim(s) == s by {
      WholeExponentEndsInDigit(x, e);
      ScientificPlain(s, ds, x);
    }
    NumberOfPlain(s, Some(v));
  }

  /** Digits, then a whole exponent, are one whole decimal literal. */
  lemma ScientificWhole(s: string, ds: string, x: string, e: int)
    requires |ds| >= 1 && AllDigits(ds) && s == ds + x && WholeExponent(x, e)
    ensures NumberOfTrimmed(s) == Some(Scale(DigitsValue(ds) as real, e))
  {
    DigitsThenExponent(s, ds, x, e, |x|);
    ScientificNotRadix(s, ds, x);
    DecimalWhole(s, Scale(DigitsValue(ds) as real, e));
  }

  /** `parseFloat` reads the same value from digits with an exponent. */
  lemma ScientificParseFloat(s: string, ds: string, x: string, e: int)
    requires |ds| >= 1 && AllDigits(ds) && s == ds + x && WholeExponent(x, e)
    ensures ParseFloat(s) == Some(Scale(DigitsValue(ds) as real, e))
  {
    DigitsThenExponent(s, ds, x, e, |x|);
    WholeExponentEndsInDigit(x, e);
    ScientificPlain(s, ds, x);
    ParseFloatOfPlain(s);
  }

  /** `1e3` is a thousand to both `parseFloat` and `Number`. */
  lemma ThousandExample()
    ensures ParseFloat("1e3") == Some(1000.0) && StringToNumber("1e3") == Some(1000.0)
  {
    assert Scale(DigitsValue("1") as real, 3) == 1000.0 by {
      assert DigitsValue("1") == 1 by { assert "1"[..0] == ""; }
    }
    assert WholeExponent("e3", 3) by {
      assert DigitsValue("3") == 3 by { assert "3"[..0] == ""; }
      ExponentOfDigits(false, "3");
      assert "e" + "3" == "e3";
    }
    assert "1e3" == "1" + "e3";
    ScientificNumber("1e3", "1", "e3", 3);
    ScientificParseFloat("1e3", "1", "e3", 3);
  }

  /** `25e-1` is two and a half. */
  lemma NegativeExponentExample()
    ensures ParseFloat("25e-1") == Some(2.5)
  {
    assert Scale(DigitsValue("25") as real, -1) == 2.5 by {
      assert DigitsValue("25") == 25 by { assert "25"[..1] == "2" && "2"[..0] == ""; }
    }
    assert WholeExponent("e-1", -1) by {
      assert DigitsValue("1") == 1 by { assert "1"[..0] == ""; }
      ExponentOfDigits(true, "1");
      assert "e-" + "1" == "e-1";
    }
    assert "25e-1" == "25" + "e-1";
    ScientificParseFloat("25e-1", "25", "e-1", -1);
  }

  /** `Number` rejects text with anything after its decimal literal. */
  lemma TrailingTextRejected(s: string, v: real, n: nat)
    requires |s| >= 2 ==> s[0] != '0' || RadixOf(s[1]) == 0
    requires DecimalScan(s) == Some((v, n)) && n < |s|
    ensures NumberOfTrimmed(s) == None
  {
  }

  /** Digits and a bare `e`: the literal is the digits alone. */
  lemma BareExponentScan(s: string, ds: string)
    requires |ds| >= 1 && AllDigits(ds) && s == ds + "e"
    ensures DecimalScan(s) == Some((DigitsValue(ds) as real, |ds|))
    ensures |s| >= 2 ==> s[0] != '0' || RadixOf(s[1]) == 0
  {
    assert ExponentOrZero("e") == (0, 0);
    DigitsThenExponent(s, ds, "e", 0, 0);
    ScientificNotRadix(s, ds, "e");
  }

  /** Digits and a bare `e` have no whitespace at either end. */
  lemma BareExponentPlain(s: string, ds: string)
    requires |ds| >= 1 && AllDigits(ds) && s == ds + "e"
    ensures TrimStart(s) == s && Trim(s) == s
  {
    assert s[0] == ds[0] && s[|s| - 1] == 'e';
    TrimPlain(s);
  }

  /** An `e` with no digits after it is not part of the literal: `parseFloat`
      reads the digits before it and `Number` rejects the whole text. */
  lemma IncompleteExponent(s: string, ds: string)
    requires |ds| >= 1 && AllDigits(ds) && s == ds + "e"
    ensures ParseFloat(s) == Some(DigitsValue(ds) as real) && StringToNumber(s) == None
  {
    BareExponentScan(s, ds);
    TrailingTextRejected(s, DigitsValue(ds) as real, |ds|);
    BareExponentPlain(s, ds);
    ParseFloatOfPlain(s);
    NumberOfPlain(s, None);
  }

  lemma IncompleteExponentExample()
    ensures ParseFloat("1e") == Some(1.0) && StringToNumber("1e") == None
  {
    assert DigitsValue("1") == 1 by { assert "1"[..0] == ""; }
    IncompleteExponent("1e", "1");
  }

  /** `Number` of `0`, a radix letter and digits of that radix. */
  lemma RadixLiteral(t: string)
    requires |t| >= 3 && t[0] == '0' && RadixOf(t[1]) != 0
    ensures NumberOfTrimmed(t) ==
      match RadixDigitsValue(t[2..], RadixOf(t[1])) case Some(v) => Some(v as real) case None => None
  {
  }

  /** `Number` reads `0`, a radix letter and digits of that radix as an
      unsigned integer, and fails on any character outside the radix. */
  lemma RadixReadsBack(s: string, c: char, ds: string)
    requires RadixOf(c) != 0 && |ds| >= 1 && !IsSpace(ds[|ds| - 1])
    requires s == ['0', c] + ds
    ensures StringToNumber(s) ==
      match RadixDigitsValue(ds, RadixOf(c)) case Some(v) => Some(v as real) case None => None
  {
    var v := match RadixDigitsValue(ds, RadixOf(c)) case Some(v) => Some(v as real) case None => None;
    assert NumberOfTrimmed(s) == v by {
      RadixLiteral(s);
      assert s[2..] == ds;
    }
    assert Trim(s) == s by {
      assert s[0] == '0' && s[|s| - 1] == ds[|ds| - 1];
      TrimPlain(s);
    }
    NumberOfPlain(s, v);
  }

  /** `0x1A` is twenty-six. */
  lemma HexExample()
    ensures StringToNumber("0x1A") == Some(26.0)
  {
    assert RadixDigitsValue("1A", 16) == Some(26) by {
      assert "1A"[..1] == "1" && "1"[..0] == "";
    }
    RadixReadsBack("0x1A", 'x', "1A");
  }

  /** `0b101` is five. */
  lemma BinaryExample()
    ensures StringToNumber("0b101") == Some(5.0)
  {
    BinaryDigits();
    RadixReadsBack("0b101", 'b', "101");
  }

  lemma BinaryDigits()
    ensures RadixDigitsValue("101", 2) == Some(5)
  {
    assert RadixDigitsValue("1", 2) == Some(1) by { assert "1"[..0] == ""; }
    assert RadixDigitsValue("10", 2) == Some(2) by { assert "10"[..1] == "1"; }
    assert "101"[..2] == "10";
  }

  /** `0o17` is fifteen. */
  lemma OctalExample()
    ensures StringToNumber("0o17") == Some(15.0)
  {
    assert RadixDigitsValue("17", 8) == Some(15) by {
      assert "17"[..1] == "1" && "1"[..0] == "";
    }
    RadixReadsBack("0o17", 'o', "17");
  }

  /** A sign before a radix prefix is not allowed: `Number` gives `NaN`. */
  lemma SignedRadixRejected(s: string)
    requires |s| >= 3 && (s[0] == '-' || s[0] == '+') && s[1] == '0' && RadixOf(s[2]) != 0
    ensures NumberOfTrimmed(s) == None
  {
    var body := s[1..];
    assert DecimalScan(s) == Some((if s[0] == '-' then -0.0 else 0.0, 2)) by {
      assert MantissaScan(body) == Some((0.0, 1)) by {
        assert body == "0" + body[1..] && body[1] == s[2];
        MantissaOfDigits("0", body[1..]);
        assert DigitsValue("0") == 0 by { assert "0"[..0] == ""; }
      }
      assert ExponentOrZero(body[1..]) == (0, 0) by { assert body[1..][0] == s[2]; }
      UnsignedOf(body, 0.0, 1, 0, 0);
      assert SignAndBody(s) == (s[0] == '-', body);
    }
  }

  /** A radix prefix with no digits after it is `NaN`. */
  lemma EmptyRadixExample()
    ensures StringToNumber("0x") == None
  {
    assert Trim("0x") == "0x" by { TrimPlain("0x"); }
    NumberOfPlain("0x", None);
  }

  /** A digit outside the radix makes the whole text `NaN`. */
  lemma DigitOutsideRadixExample()
    ensures StringToNumber("0b2") == None
  {
    assert RadixDigitsValue("2", 2) == None;
    RadixReadsBack("0b2", 'b', "2");
  }

  /** `-0x1A` is `NaN`: the radix forms take no sign. */
  lemma SignedRadixExample()
    ensures StringToNumber("-0x1A") == None
  {
    var s := "-0x1A";
    SignedRadixRejected(s);
    TrimPlain(s);
    NumberOfPlain(s, None);
  }

  // ---- parseInt without a radix --------------------------------------------

  /** Whether `body` starts with the prefix `0x` or `0X`. */
  predicate HexPrefixed(body: string) {
    |body| >= 2 && body[0] == '0' && (body[1] == 'x' || body[1] == 'X')
  }

  /** The longest run of digits of `radix` at the head of `s`. */
  function LeadingRadixDigits(s: string, radix: nat): (r: string)
    ensures |r| <= |s| && r == s[..|r|]
    ensures forall i :: 0 <= i < |r| ==> DigitValue(r[i]) < radix
    ensures |r| < |s| ==> DigitValue(s[|r|]) >= radix
  {
    if s != [] && DigitValue(s[0]) < radix then
      var t := LeadingRadixDigits(s[1..], radix);
      assert [s[0]] + t == s[..1 + |t|];
      [s[0]] + t
    else []
  }

  /** `parseInt(s)` with no radix argument: after leading whitespace and an
      optional sign, `0x` or `0X` selects base 16 and anything else base 10;
      the longest run of digits of that base is read, and `None` stands for
      `NaN` when there is none. */
  function ParseIntAuto(s: string): Option<int> {
    var (neg, body) := SignAndBody(TrimStart(s));
    if HexPrefixed(body) then
      var ds := LeadingRadixDigits(body[2..], 16);
      if ds == [] then None
      else
        var v := RadixDigitsValue(ds, 16).value;
        Some(if neg then -(v as int) else v as int)
    else ParseInt(s)
  }

  lemma {:induction false} LeadingRadixDigitsOf(ds: string, tail: string, radix: nat)
    requires forall i :: 0 <= i < |ds| ==> DigitValue(ds[i]) < radix
    requires tail == [] || DigitValue(tail[0]) >= radix
    ensures LeadingRadixDigits(ds + tail, radix) == ds
  {
    if ds == [] {
      assert ds + tail == tail;
    } else {
      assert (ds + tail)[0] == ds[0] && (ds + tail)[1..] == ds[1..] + tail;
      LeadingRadixDigitsOf(ds[1..], tail, radix);
    }
  }

  /** Without a radix, `parseInt` reads `0x` (or `0X`) and hexadecimal digits
      as a base-16 number, stopping at the first character that is not one. */
  lemma HexParseInt(s: string, ds: string, tail: string)
    requires HexPrefixed(s) && s[2..] == ds + tail
    requires |ds| >= 1 && forall i :: 0 <= i < |ds| ==> DigitValue(ds[i]) < 16
    requires tail == [] || DigitValue(tail[0]) >= 16
    ensures RadixDigitsValue(ds, 16).Some?
    ensures ParseIntAuto(s) == Some(RadixDigitsValue(ds, 16).value as int)
  {
    HexUnsigned(s);
    LeadingRadixDigitsOf(ds, tail, 16);
  }

  /** `0x` with no hexadecimal digit after it is `NaN`, even though `0` alone
      would read as zero. */
  lemma HexWithoutDigits(s: string)
    requires HexPrefixed(s)
    requires |s| == 2 || DigitValue(s[2]) >= 16
    ensures ParseIntAuto(s) == None
  {
    HexUnsigned(s);
  }

  /** Text that starts with `0x` has no leading whitespace and no sign. */
  lemma HexUnsigned(s: string)
    requires HexPrefixed(s)
    ensures SignAndBody(TrimStart(s)) == (false, s)
  {
  }

  /** The first digit of `n` written in decimal. */
  function LeadingDigit(n: nat): (r: nat)
    requires n >= 1
    ensures 1 <= r <= 9
  {
    if n < 10 then n else LeadingDigit(n / 10)
  }

  /** `LeadingDigit` is the first character `String(n)` prints. */
  lemma {:induction false} LeadingDigitPrinted(n: nat)
    requires n >= 1
    ensures NatToString(n)[0] == DigitChar(LeadingDigit(n))
  {
    if n >= 10 {
      LeadingDigitPrinted(n / 10);
      assert NatToString(n) == NatToString(n / 10) + [DigitChar(n % 10)];
    }
  }

  lemma {:induction false} Pow10Add(a: nat, b: nat)
    ensures Pow10(a + b) == Pow10(a) * Pow10(b)
  {
    if b > 0 {
      Pow10Add(a, b - 1);
    }
  }

  /** A digit followed by zeros leads with that digit. */
  lemma {:induction false} LeadingDigitScaled(d: nat, k: nat)
    requires 1 <= d <= 9
    ensures LeadingDigit(d * Pow10(k)) == d
  {
    if k > 0 {
      LeadingDigitScaled(d, k - 1);
      assert d * Pow10(k) == (d * Pow10(k - 1)) * 10;
    }
  }

  lemma ReciprocalShrinks(m: real)
    requires 0.0 < m && m * 10.0 < 1.0
    ensures 0 <= (1.0 / (m * 10.0)).Floor < (1.0 / m).Floor
  {
    var y := 1.0 / m;
    assert m * y == 1.0;
    assert 1.0 / (m * 10.0) == y / 10.0 by {
      assert (m * 10.0) * (y / 10.0) == m * y;
    }
    assert y > 10.0;
    assert (y / 10.0).Floor as real <= y / 10.0 < y - 1.0 < y.Floor as real;
  }

  /** The first non-zero digit of a number between 0 and 1: scale by ten until
      the number reaches 1, then take its integer part. */
  function FirstSignificantDigit(m: real): (r: nat)
    requires 0.0 < m < 1.0
    ensures 1 <= r <= 9
    decreases (1.0 / m).Floor
  {
    if m * 10.0 >= 1.0 then (m * 10.0).Floor
    else
      ReciprocalShrinks(m);
      FirstSignificantDigit(m * 10.0)
  }
}
