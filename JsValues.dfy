/** The slice of JavaScript value semantics the client relies on: truthiness,
    the `||` operator, optional-chaining property reads, and the string a
    template literal `${v}` produces. Numbers are integers here (the client
    only ever formats HTTP status codes and message ids), written in plain
    digits as JavaScript does below 1e21. */
module JsValues {
  import opened Wrappers

  /** A JavaScript value as it can appear in a decoded JSON response body
      or in a wire body the client builds. */
  datatype JsValue =
    | JsUndefined
    | JsNull
    | JsBool(b: bool)
    | JsNumber(n: int)
    | JsString(s: string)
    | JsArray(items: seq<JsValue>)
    | JsObject(fields: map<string, JsValue>)

  /** JavaScript truthiness: `undefined`, `null`, `false`, `0` and `""` are falsy. */
  function Truthy(v: JsValue): (b: bool)
    ensures !b <==> v in {JsUndefined, JsNull, JsBool(false), JsNumber(0), JsString("")}
  {
    match v
    case JsUndefined => false
    case JsNull => false
    case JsBool(b) => b
    case JsNumber(n) => n != 0
    case JsString(s) => s != ""
    case JsArray(_) => true
    case JsObject(_) => true
  }

  /** `a || b`: the left operand when it is truthy, otherwise the right one. */
  function Or(a: JsValue, b: JsValue): (r: JsValue)
    ensures r == a || r == b
    ensures Truthy(r) <==> Truthy(a) || Truthy(b)
    ensures Truthy(a) ==> r == a
    ensures !Truthy(a) ==> r == b
  {
    if Truthy(a) then a else b
  }

  /** `v?.key`: the property of an object, `undefined` for a missing key or a
      value that is not an object (including `undefined` and `null`). */
  function Get(v: JsValue, key: string): (r: JsValue)
    ensures r != JsUndefined ==> v.JsObject? && key in v.fields && v.fields[key] == r
    ensures v.JsObject? && key in v.fields ==> r == v.fields[key]
  {
    match v
    case JsObject(fields) => if key in fields then fields[key] else JsUndefined
    case _ => JsUndefined
  }

  /** An optional string argument as the value it reads as: `undefined` when omitted. */
  function FromOption(o: Option<string>): (r: JsValue)
    ensures Truthy(r) <==> o.Some? && o.value != ""
    ensures o.Some? ==> r.JsString? && r.s == o.value
    ensures o.None? ==> r == JsUndefined
  {
    match o
    case None => JsUndefined
    case Some(s) => JsString(s)
  }

  // ---------------------------------------------------------------------
  // Decimal notation of integers, as `String(n)` writes it.

  predicate IsDigit(c: char) {
    '0' <= c <= '9'
  }

  predicate AllDigits(s: string) {
    forall i :: 0 <= i < |s| ==> IsDigit(s[i])
  }

  /** Digit strings without superfluous leading zeros, as `String(n)` writes them. */
  predicate Canonical(s: string) {
    |s| > 0 && AllDigits(s) && (s[0] == '0' ==> |s| == 1)
  }

  function DigitValue(c: char): (d: nat)
    requires IsDigit(c)
    ensures d < 10
  {
    c as int - '0' as int
  }

  function DigitChar(d: nat): (c: char)
    requires d < 10
    ensures IsDigit(c) && DigitValue(c) == d
  {
    ('0' as int + d) as char
  }

  /** The decimal notation of a natural number. */
  function NatToDecimal(n: nat): (s: string)
    ensures Canonical(s)
    ensures s[0] == '0' ==> n == 0
    decreases n
  {
    if n < 10 then [DigitChar(n)] else NatToDecimal(n / 10) + [DigitChar(n % 10)]
  }

  /** The number a digit string denotes. */
  function DecimalValue(s: string): nat
    requires AllDigits(s)
    decreases |s|
  {
    if s == [] then 0 else DecimalValue(s[..|s| - 1]) * 10 + DigitValue(s[|s| - 1])
  }

  /** `String(i)` for an integer `i` a double holds exactly and below 1e21. */
  function IntToDecimal(i: int): (s: string)
    ensures |s| > 0
    ensures forall k :: 0 <= k < |s| ==> s[k] == '-' || IsDigit(s[k])
    ensures s[0] == '-' <==> i < 0
    ensures i >= 0 ==> Canonical(s)
    ensures i < 0 ==> |s| > 1 && Canonical(s[1..]) && s[1..] != "0"
  {
    if i < 0 then
      var digits := NatToDecimal(-i);
      assert ("-" + digits)[1..] == digits;
      "-" + digits
    else NatToDecimal(i)
  }

  /** Reads back an optionally signed digit string. */
  function ParseInt(s: string): Option<int> {
    if |s| > 1 && s[0] == '-' && AllDigits(s[1..]) then (var v: int := DecimalValue(s[1..]); Some(-v))
    else if |s| > 0 && AllDigits(s) then Some(DecimalValue(s))
    else None
  }

  lemma {:induction false} DecimalRoundTrip(n: nat)
    ensures DecimalValue(NatToDecimal(n)) == n
    decreases n
  {
    if n >= 10 {
      var s := NatToDecimal(n);
      assert s[..|s| - 1] == NatToDecimal(n / 10);
      DecimalRoundTrip(n / 10);
    }
  }

  lemma {:induction false} LeadingDigitPositive(s: string)
    requires |s| > 0 && AllDigits(s) && s[0] != '0'
    ensures DecimalValue(s) >= 1
    decreases |s|
  {
    if |s| > 1 {
      LeadingDigitPositive(s[..|s| - 1]);
    }
  }

  /** Every canonical digit string is the notation of the number it denotes. */
  lemma {:induction false} CanonicalRoundTrip(s: string)
    requires Canonical(s)
    ensures NatToDecimal(DecimalValue(s)) == s
    decreases |s|
  {
    var c := s[|s| - 1];
    if |s| == 1 {
      assert DigitChar(DigitValue(c)) == c;
      assert s == [c];
    } else {
      var p := s[..|s| - 1];
      assert p[0] == s[0];
      LeadingDigitPositive(p);
      CanonicalRoundTrip(p);
      var v := DecimalValue(s);
      assert v / 10 == DecimalValue(p) && v % 10 == DigitValue(c);
      assert DigitChar(DigitValue(c)) == c;
      assert s == p + [c];
    }
  }

  /** Parsing the notation of an integer gives the integer back. */
  lemma IntDecimalRoundTrip(i: int)
    ensures ParseInt(IntToDecimal(i)) == Some(i)
  {
    var s := IntToDecimal(i);
    if i < 0 {
      assert s[1..] == NatToDecimal(-i);
      DecimalRoundTrip(-i);
    } else {
      DecimalRoundTrip(i);
    }
  }

  /** Different integers are written differently. */
  lemma IntToDecimalInjective(a: int, b: int)
    requires IntToDecimal(a) == IntToDecimal(b)
    ensures a == b
  {
    IntDecimalRoundTrip(a);
    IntDecimalRoundTrip(b);
  }

  // ---------------------------------------------------------------------
  // Template-literal conversion.

  /** The elements of a sequence separated by `sep`, as `Array.prototype.join` does. */
  function Join(parts: seq<string>, sep: string): string
    decreases |parts|
  {
    if |parts| == 0 then ""
    else if |parts| == 1 then parts[0]
    else Join(parts[..|parts| - 1], sep) + sep + parts[|parts| - 1]
  }

  /** The text `${v}` inserts: `String(v)`. Array elements that are `undefined`
      or `null` contribute the empty string, as `Array.prototype.toString` does. */
  function Display(v: JsValue): (r: string)
    ensures v.JsString? ==> r == v.s
    ensures v.JsNumber? ==> r == IntToDecimal(v.n) && ParseInt(r) == Some(v.n)
    ensures v.JsUndefined? ==> r == "undefined"
    ensures v.JsNull? ==> r == "null"
    ensures v.JsBool? ==> r == if v.b then "true" else "false"
    ensures v.JsObject? ==> r == "[object Object]"
    ensures v == JsArray([]) ==> r == ""
    ensures v.JsArray? && |v.items| == 1 && !v.items[0].JsUndefined? && !v.items[0].JsNull? ==> r == Display(v.items[0])
    decreases v
  {
    match v
    case JsUndefined => "undefined"
    case JsNull => "null"
    case JsBool(b) => if b then "true" else "false"
    case JsNumber(n) => IntDecimalRoundTrip(n); IntToDecimal(n)
    case JsString(s) => s
    case JsArray(items) =>
      Join(seq(|items|, k requires 0 <= k < |items| =>
        if items[k].JsUndefined? || items[k].JsNull? then "" else Display(items[k])), ",")
    case JsObject(_) => "[object Object]"
  }
}
