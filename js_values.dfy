/**
 * The slice of JavaScript value semantics that the request handlers rely on:
 * `typeof`, truthiness, property reads, `String.prototype.trim`,
 * `Number.parseInt(s, 10)`, `Number(s)` and `String(v)`.
 * Numbers are integers here (no fractions, NaN or infinities as values).
 */
module JsValues {
  import opened Wrappers

  datatype JsValue =
    | Undefined
    | Null
    | Bool(b: bool)
    | Num(n: int)
    | Str(s: string)
    | Arr(items: seq<JsValue>)
    | Obj(fields: map<string, JsValue>)

  /** `typeof v` (no functions occur among the values modelled). */
  function TypeOf(v: JsValue): string {
    match v
    case Undefined => "undefined"
    case Bool(_) => "boolean"
    case Num(_) => "number"
    case Str(_) => "string"
    case Null => "object"
    case Arr(_) => "object"
    case Obj(_) => "object"
  }

  /** `!!v`: the falsy values are undefined, null, false, 0 and "". */
  predicate Truthy(v: JsValue) {
    match v
    case Undefined => false
    case Null => false
    case Bool(b) => b
    case Num(n) => n != 0
    case Str(s) => s != ""
    case Arr(_) => true
    case Obj(_) => true
  }

  /** `a || b` */
  function Or(a: JsValue, b: JsValue): JsValue {
    if Truthy(a) then a else b
  }

  /**
   * `v[key]` for the keys the handlers read (title, content, tags, page, search, id, usId, ...):
   * only a plain object can carry them; on every other value the read yields undefined.
   */
  function Get(v: JsValue, key: string): JsValue {
    if v.Obj? && key in v.fields then v.fields[key] else Undefined
  }

  /** ECMAScript WhiteSpace and LineTerminator code points, the set `trim` and `parseInt` strip. */
  predicate IsWhitespace(c: char) {
    || c == '\t' || c == '\n' || c == '\U{0B}' || c == '\U{0C}' || c == '\r' || c == ' '
    || c == '\U{A0}' || c == '\U{1680}' || ('\U{2000}' <= c <= '\U{200A}')
    || c == '\U{2028}' || c == '\U{2029}' || c == '\U{202F}' || c == '\U{205F}'
    || c == '\U{3000}' || c == '\U{FEFF}'
  }

  /** Leading whitespace removed: what remains is a suffix starting with a non-blank character. */
  function TrimStart(s: string): (r: string)
    ensures |r| <= |s| && r == s[|s| - |r|..]
    ensures r == [] || !IsWhitespace(r[0])
    ensures forall i :: 0 <= i < |s| - |r| ==> IsWhitespace(s[i])
  {
    if s != [] && IsWhitespace(s[0]) then TrimStart(s[1..]) else s
  }

  /** Trailing whitespace removed: what remains is a prefix ending with a non-blank character. */
  function TrimEnd(s: string): (r: string)
    ensures |r| <= |s| && r == s[..|r|]
    ensures r == [] || !IsWhitespace(r[|r| - 1])
    ensures forall i :: |r| <= i < |s| ==> IsWhitespace(s[i])
  {
    if s != [] && IsWhitespace(s[|s| - 1]) then TrimEnd(s[..|s| - 1]) else s
  }

  /** `s.trim()` */
  function Trim(s: string): string {
    TrimEnd(TrimStart(s))
  }

  /** A string is blank when every character is whitespace (the empty string included). */
  predicate Blank(s: string) {
    forall i :: 0 <= i < |s| ==> IsWhitespace(s[i])
  }

  /** `!s.trim()` holds exactly for blank strings. */
  lemma TrimEmptyIffBlank(s: string)
    ensures Trim(s) == [] <==> Blank(s)
  {
    var t := TrimStart(s);
    if TrimEnd(t) == [] {
      assert Blank(t);
      assert t == [];
    }
  }

  /** Otherwise the trimmed text has non-blank ends. */
  lemma TrimSpec(s: string)
    ensures Trim(s) != [] ==> !IsWhitespace(Trim(s)[0]) && !IsWhitespace(Trim(s)[|Trim(s)| - 1])
  {
    var t := TrimStart(s);
    var r := TrimEnd(t);
    if r != [] {
      assert r[0] == t[0];
    }
  }

  /** The trimmed text is an infix of `s`. */
  lemma TrimIsInfix(s: string)
    ensures exists i, j :: 0 <= i <= j <= |s| && Trim(s) == s[i..j]
  {
    var t := TrimStart(s);
    PrefixOfSuffixIsInfix(s, t, TrimEnd(t));
  }

  lemma PrefixOfSuffixIsInfix(s: string, t: string, r: string)
    requires |t| <= |s| && t == s[|s| - |t|..]
    requires |r| <= |t| && r == t[..|r|]
    ensures exists i, j :: 0 <= i <= j <= |s| && r == s[i..j]
  {
    var k := |s| - |t|;
    assert r == s[k..k + |r|];
  }

  /** `typeof v === "string" && v.trim()`: a string with at least one non-blank character. */
  predicate IsNonBlankString(v: JsValue) {
    v.Str? && Trim(v.s) != ""
  }

  /** One non-blank character is enough for the trimmed text to be non-empty. */
  lemma NonBlankWitness(s: string, i: nat)
    requires i < |s| && !IsWhitespace(s[i])
    ensures Trim(s) != ""
  {
    TrimEmptyIffBlank(s);
  }

  /** Trimming twice is trimming once. */
  lemma {:induction false} TrimIdempotent(s: string)
    ensures Trim(Trim(s)) == Trim(s)
  {
    var r := Trim(s);
    TrimSpec(s);
    TrimEmptyIffBlank(s);
    if r != [] {
      assert TrimStart(r) == r;
      assert TrimEnd(r) == r;
    }
  }

  predicate IsDigit(c: char) {
    '0' <= c <= '9'
  }

  predicate AllDigits(s: string) {
    forall i :: 0 <= i < |s| ==> IsDigit(s[i])
  }

  function DigitChar(d: nat): (c: char)
    requires d < 10
    ensures IsDigit(c)
  {
    ('0' as int + d) as char
  }

  function DigitValue(c: char): (d: nat)
    requires IsDigit(c)
    ensures d < 10
  {
    c as int - '0' as int
  }

  /** The base-10 value of a digit string, most significant digit first. */
  function DigitsValue(ds: string): nat
    requires AllDigits(ds)
  {
    if ds == [] then 0 else DigitsValue(ds[..|ds| - 1]) * 10 + DigitValue(ds[|ds| - 1])
  }

  /** The shortest base-10 numeral of `n`, as `String(n)` writes it. */
  function DecimalString(n: nat): (r: string)
    ensures |r| >= 1 && AllDigits(r)
  {
    if n < 10 then [DigitChar(n)] else DecimalString(n / 10) + [DigitChar(n % 10)]
  }

  /** The numeral reads back as the number it was written from. */
  lemma {:induction false} DecimalStringValue(n: nat)
    ensures DigitsValue(DecimalString(n)) == n
  {
    if n >= 10 {
      var ds := DecimalString(n);
      assert ds[..|ds| - 1] == DecimalString(n / 10);
      DecimalStringValue(n / 10);
    }
  }

  /** The longest prefix of `s` made of digits. */
  function LeadingDigits(s: string): (r: string)
    ensures |r| <= |s| && r == s[..|r|] && AllDigits(r)
    ensures |r| == |s| || !IsDigit(s[|r|])
  {
    if s != [] && IsDigit(s[0]) then [s[0]] + LeadingDigits(s[1..]) else []
  }

  lemma LeadingDigitsOfDigits(s: string)
    requires AllDigits(s)
    ensures LeadingDigits(s) == s
  {
  }

  /**
   * `Number.parseInt(s, 10)`: skip leading whitespace, read one optional sign,
   * then the longest run of decimal digits; no digit at all gives NaN (None).
   */
  function ParseInt(s: string): Option<int> {
    var t := TrimStart(s);
    var negative := |t| > 0 && t[0] == '-';
    var unsigned := if |t| > 0 && (t[0] == '-' || t[0] == '+') then t[1..] else t;
    var ds := LeadingDigits(unsigned);
    if ds == [] then None
    else if negative then Some(-(DigitsValue(ds) as int))
    else Some(DigitsValue(ds))
  }

  /** Text that starts with neither whitespace, a sign nor a digit is not a number. */
  lemma NoLeadingNumeral(s: string)
    requires |s| > 0 && !IsWhitespace(s[0]) && !IsDigit(s[0]) && s[0] != '-' && s[0] != '+'
    ensures ParseInt(s) == None
  {
    assert TrimStart(s) == s;
    assert LeadingDigits(s) == [];
  }

  /** `String(n)` for an integer. */
  function IntString(n: int): string {
    if n < 0 then "-" + DecimalString(-n) else DecimalString(n)
  }

  /** A numeral, signed or not, starts and ends with a non-blank character, so trimming keeps it whole. */
  lemma IntStringTrimmed(n: int)
    ensures TrimStart(IntString(n)) == IntString(n)
    ensures TrimEnd(IntString(n)) == IntString(n)
  {
    var s := IntString(n);
    var ds := DecimalString(if n < 0 then -n else n);
    assert s[|s| - 1] == ds[|ds| - 1];
    assert !IsWhitespace(s[|s| - 1]);
    assert !IsWhitespace(s[0]);
    TrimKeepsNonBlankEnds(s);
  }

  lemma TrimKeepsNonBlankEnds(s: string)
    requires s != [] && !IsWhitespace(s[0]) && !IsWhitespace(s[|s| - 1])
    ensures TrimStart(s) == s && TrimEnd(s) == s
  {
  }

  /** `parseInt(String(n), 10) === n`: a number given as the page is read back unchanged. */
  lemma ParseIntOfIntString(n: int)
    ensures ParseInt(IntString(n)) == Some(n)
  {
    var m: nat := if n < 0 then -n else n;
    var ds := DecimalString(m);
    DecimalStringValue(m);
    LeadingDigitsOfDigits(ds);
    IntStringTrimmed(n);
    var t := TrimStart(IntString(n));
    if n < 0 {
      assert t[0] == '-' && t[1..] == ds;
    } else {
      assert t == ds && IsDigit(t[0]);
    }
  }

  /** Array.prototype.join with ",". */
  function JoinComma(parts: seq<string>): string {
    if parts == [] then ""
    else if |parts| == 1 then parts[0]
    else parts[0] + "," + JoinComma(parts[1..])
  }

  /** `String(v)`: arrays join their elements with ",", writing undefined and null elements as "". */
  function ToJsString(v: JsValue): string {
    match v
    case Undefined => "undefined"
    case Null => "null"
    case Bool(b) => if b then "true" else "false"
    case Num(n) => IntString(n)
    case Str(s) => s
    case Obj(_) => "[object Object]"
    case Arr(items) =>
      JoinComma(seq(|items|, i requires 0 <= i < |items| =>
                            if items[i].Undefined? || items[i].Null? then "" else ToJsString(items[i])))
  }

  /**
   * `Number(s)` for a string, restricted to optional sign and decimal digits:
   * blank text is 0, anything else that is not such a numeral is NaN (None).
   */
  function ToNumber(s: string): Option<int> {
    NumeralValue(Trim(s))
  }

  /** The value of trimmed text as `Number` reads it: empty is 0, a signed digit string its value. */
  function NumeralValue(t: string): Option<int> {
    var unsigned := if |t| > 0 && (t[0] == '-' || t[0] == '+') then t[1..] else t;
    if t == [] then Some(0)
    else if unsigned == [] || !AllDigits(unsigned) then None
    else if t[0] == '-' then Some(-(DigitsValue(unsigned) as int))
    else Some(DigitsValue(unsigned))
  }

  /** `Number(String(n)) === n` for the integers modelled. */
  lemma ToNumberOfIntString(n: int)
    ensures ToNumber(IntString(n)) == Some(n)
  {
    IntStringTrimmed(n);
    assert Trim(IntString(n)) == IntString(n);
    NumeralValueOfIntString(n);
  }

  lemma NumeralValueOfIntString(n: int)
    ensures NumeralValue(IntString(n)) == Some(n)
  {
    var m: nat := if n < 0 then -n else n;
    var ds := DecimalString(m);
    DecimalStringValue(m);
    var s := IntString(n);
    if n < 0 {
      assert s[0] == '-' && s[1..] == ds;
    } else {
      assert s == ds && IsDigit(s[0]);
    }
  }

  /** `Math.ceil(a / b)` for a positive divisor. */
  function CeilDiv(a: int, b: int): (q: int)
    requires b > 0
    ensures (q - 1) * b < a <= q * b
  {
    -((-a) / b)
  }

  /** `Math.min(a, b)` */
  function Min(a: int, b: int): int {
    if a <= b then a else b
  }
}
