/**
 * JavaScript values as parsed from JSON, and the two ways the TypeScript code
 * reads a property: `o[k]` and optional chaining `o?.[k]`. `undefined` is
 * `None`. Numbers are integers; an object's properties are a map, so their
 * order is not modelled.
 */
module JsValues {
  import opened Wrappers
  import opened Text

  datatype Json =
    | Null
    | Bool(b: bool)
    | Num(n: int)
    | Str(s: string)
    | Arr(items: seq<Json>)
    | Obj(fields: map<string, Json>)

  /** JavaScript truthiness of a possibly `undefined` value. */
  predicate Truthy(v: Option<Json>) {
    v.Some? &&
    match v.value
    case Null => false
    case Bool(b) => b
    case Num(n) => n != 0
    case Str(s) => s != ""
    case _ => true
  }

  predicate IsDigit(c: char) {
    '0' <= c <= '9'
  }

  /** `/^\d+$/.test(s)`. */
  predicate AllDigits(s: string) {
    |s| > 0 && forall i :: 0 <= i < |s| ==> IsDigit(s[i])
  }

  /** The number a string of decimal digits denotes. */
  function DigitsValue(s: string): nat
    requires forall i :: 0 <= i < |s| ==> IsDigit(s[i])
    decreases |s|
  {
    if s == [] then 0
    else
      assert IsDigit(s[|s| - 1]);
      DigitsValue(s[..|s| - 1]) * 10 + (s[|s| - 1] as int - '0' as int)
  }

  /** The decimal digits of `n`, as `String(n)` writes them. */
  function Decimal(n: nat): (s: string)
    ensures AllDigits(s)
    decreases n
  {
    if n < 10 then [('0' as int + n) as char]
    else Decimal(n / 10) + [('0' as int + n % 10) as char]
  }

  /** A property key that names an array element: digits with no leading zero. */
  predicate IsIndexKey(k: string) {
    AllDigits(k) && (k[0] != '0' || |k| == 1)
  }

  /** `Decimal` and `DigitsValue` are inverse: an index key is the decimal form of exactly one index. */
  lemma {:induction false} DecimalRoundTrip(n: nat)
    ensures IsIndexKey(Decimal(n)) && DigitsValue(Decimal(n)) == n
    decreases n
  {
    var s := Decimal(n);
    if n >= 10 {
      DecimalRoundTrip(n / 10);
      assert s[..|s| - 1] == Decimal(n / 10);
      assert s[0] == Decimal(n / 10)[0];
    }
  }

  /** The property key of a number: `String(n)`. */
  function NumberKey(n: int): string {
    if n >= 0 then Decimal(n) else "-" + Decimal(-n)
  }

  /**
   * `o[k]` on a value that is neither `null` nor `undefined`: an object's own
   * property, an array's element for an index key, and `undefined` otherwise
   * (properties of primitives and inherited properties are not modelled).
   */
  function Prop(o: Json, k: string): (r: Option<Json>)
    ensures o.Obj? ==> r == (if k in o.fields then Some(o.fields[k]) else None)
    ensures r.Some? ==> o.Obj? || (o.Arr? && IsIndexKey(k) && DigitsValue(k) < |o.items|)
  {
    match o
    case Obj(fields) => if k in fields then Some(fields[k]) else None
    case Arr(items) => if IsIndexKey(k) && DigitsValue(k) < |items| then Some(items[DigitsValue(k)]) else None
    case _ => None
  }

  /** `o?.[k]`: `undefined` when `o` is `null` or `undefined`. */
  function Chain(o: Option<Json>, k: string): (r: Option<Json>)
    ensures o.None? || o.value.Null? ==> r.None?
  {
    if o.None? || o.value.Null? then None else Prop(o.value, k)
  }

  /** `parseInt(s)` in base 10: leading white space, a sign, then the longest run of digits; `None` is `NaN`. */
  function ParseInt(s: string): Option<int> {
    var t := TrimStart(s);
    var neg := |t| > 0 && t[0] == '-';
    var body := if |t| > 0 && (t[0] == '-' || t[0] == '+') then t[1..] else t;
    var n := DigitRun(body);
    if n == 0 then None
    else
      var v: int := DigitsValue(body[..n]);
      Some(if neg then -v else v)
  }

  /** The length of the run of digits `s` starts with. */
  function DigitRun(s: string): (n: nat)
    ensures n <= |s| && forall i :: 0 <= i < n ==> IsDigit(s[i])
    ensures n < |s| ==> !IsDigit(s[n])
    decreases |s|
  {
    if s != [] && IsDigit(s[0]) then 1 + DigitRun(s[1..]) else 0
  }

  /** `parseInt(String(n)) == n` for an index. */
  lemma ParseDecimal(n: nat)
    ensures ParseInt(Decimal(n)) == Some(n)
  {
    var s := Decimal(n);
    DecimalRoundTrip(n);
    NoLeadingSpace(s);
    DigitRunAll(s);
    assert s[..|s|] == s;
  }

  lemma NoLeadingSpace(s: string)
    requires s != [] && IsDigit(s[0])
    ensures TrimStart(s) == s
  {
  }

  lemma {:induction false} DigitRunAll(s: string)
    requires forall i :: 0 <= i < |s| ==> IsDigit(s[i])
    ensures DigitRun(s) == |s|
    decreases |s|
  {
    if s != [] {
      DigitRunAll(s[1..]);
    }
  }

  /** `o?.[n]` for a number `n`, where `NaN` is looked up as the key "NaN". */
  function ChainNumber(o: Option<Json>, n: Option<int>): Option<Json> {
    Chain(o, if n.Some? then NumberKey(n.value) else "NaN")
  }
}
