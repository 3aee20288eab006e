/**
 * JSON values as JavaScript holds them after `JSON.parse`, and the pieces of
 * JavaScript semantics the proxy relies on: the truthiness behind `!x`, strict
 * equality `===`, and the string conversion a template literal applies to a
 * value it interpolates.
 */
module Json {
  import opened Wrappers

  /** A parsed JSON value. Numbers are modelled as mathematical integers. */
  datatype Json =
    | JNull
    | JBool(b: bool)
    | JNumber(n: int)
    | JString(s: string)
    | JArray(items: seq<Json>)
    | JObject(fields: map<string, Json>)

  /** `obj[key]` on a parsed object; `None` is `undefined` (the key is absent). */
  function Get(fields: map<string, Json>, key: string): Option<Json>
  {
    if key in fields then Some(fields[key]) else None
  }

  /**
   * JavaScript truthiness of a value that may be `undefined`: `!v` holds
   * exactly for `undefined`, `null`, `false`, `0` and `""`; every array and
   * every object, even an empty one, is truthy.
   */
  predicate Truthy(v: Option<Json>)
    ensures !Truthy(v) <==>
      v == None || v == Some(JNull) || v == Some(JBool(false)) || v == Some(JNumber(0)) || v == Some(JString(""))
  {
    match v
    case None => false
    case Some(JNull) => false
    case Some(JBool(b)) => b
    case Some(JNumber(n)) => n != 0
    case Some(JString(s)) => s != ""
    case Some(JArray(_)) => true
    case Some(JObject(_)) => true
  }

  predicate IsPrimitive(j: Json)
  {
    !j.JArray? && !j.JObject?
  }

  /**
   * `a === b` where `a` and `b` come from two different `JSON.parse` results.
   * Primitives compare by value; an array or object compares by identity, and
   * two separately parsed values are never the same object.
   */
  predicate StrictEquals(a: Json, b: Json)
    ensures StrictEquals(a, b) ==> a == b
    ensures a == b && IsPrimitive(a) ==> StrictEquals(a, b)
    ensures !IsPrimitive(a) || !IsPrimitive(b) ==> !StrictEquals(a, b)
  {
    IsPrimitive(a) && IsPrimitive(b) && a == b
  }

  // ---------------------------------------------------------------------------
  // Number to string (for integers, JavaScript prints plain decimal digits)
  // ---------------------------------------------------------------------------

  predicate IsDigit(c: char)
  {
    '0' <= c <= '9'
  }

  function DigitChar(d: nat): (c: char)
    requires d < 10
    ensures IsDigit(c) && c as int - '0' as int == d
  {
    (d + '0' as int) as char
  }

  /** Decimal digits of `n`, most significant first, without leading zeros. */
  function NatToDecimal(n: nat): (r: string)
    ensures |r| >= 1
    ensures forall i :: 0 <= i < |r| ==> IsDigit(r[i])
    ensures r[0] == '0' ==> n == 0
    decreases n
  {
    if n < 10 then [DigitChar(n)] else NatToDecimal(n / 10) + [DigitChar(n % 10)]
  }

  /** The number a string of decimal digits denotes (the inverse of `NatToDecimal`). */
  function DecimalValue(s: string): nat
  {
    if |s| == 0 then 0
    else
      var d := s[|s| - 1] as int - '0' as int;
      DecimalValue(s[..|s| - 1]) * 10 + (if 0 <= d < 10 then d else 0)
  }

  lemma {:induction false} DecimalRoundTrip(n: nat)
    ensures DecimalValue(NatToDecimal(n)) == n
    decreases n
  {
    if n >= 10 {
      var s := NatToDecimal(n);
      assert s[..|s| - 1] == NatToDecimal(n / 10);
      DecimalRoundTrip(n / 10);
    }
  }

  /** `String(n)` for an integer: an optional minus sign and the decimal digits of `|n|`. */
  function IntToDecimal(n: int): (r: string)
    ensures |r| >= 2 || (|r| == 1 && IsDigit(r[0]))
    ensures r[0] == '-' <==> n < 0
  {
    if n < 0 then "-" + NatToDecimal(-n) else NatToDecimal(n)
  }

  /** Reads back what `IntToDecimal` prints. */
  function SignedDecimalValue(s: string): int
  {
    if |s| > 0 && s[0] == '-' then 0 - DecimalValue(s[1..]) else DecimalValue(s)
  }

  lemma {:induction false} IntToDecimalRoundTrip(n: int)
    ensures SignedDecimalValue(IntToDecimal(n)) == n
  {
    if n < 0 {
      DecimalRoundTrip(-n);
      assert IntToDecimal(n)[1..] == NatToDecimal(-n);
    } else {
      DecimalRoundTrip(n);
    }
  }

  // ---------------------------------------------------------------------------
  // Template-literal string conversion
  // ---------------------------------------------------------------------------

  /**
   * Whether converting `j` to a string throws a TypeError. A parsed object whose
   * own key `toString` shadows the callable one leaves `ToPrimitive` with no
   * method that yields a primitive value; an array throws when one of its
   * elements does, because `join` converts every element.
   */
  predicate CoercionThrows(j: Json)
    decreases j
  {
    match j
    case JObject(fields) => "toString" in fields
    case JArray(items) => exists i :: 0 <= i < |items| && CoercionThrows(items[i])
    case _ => false
  }

  /**
   * The string `${j}` produces, or `None` when the conversion throws.
   * Strings are kept verbatim, booleans and integers are printed, an array is
   * the comma-joined text of its elements, an object is "[object Object]".
   */
  function ToText(j: Json): (r: Option<string>)
    ensures r.None? <==> CoercionThrows(j)
    ensures j.JString? ==> r == Some(j.s)
    ensures j.JNumber? ==> r == Some(IntToDecimal(j.n))
    decreases j
  {
    match j
    case JNull => Some("null")
    case JBool(b) => Some(if b then "true" else "false")
    case JNumber(n) => Some(IntToDecimal(n))
    case JString(s) => Some(s)
    case JArray(items) => JoinItems(items)
    case JObject(fields) => if "toString" in fields then None else Some("[object Object]")
  }

  /** `Array.prototype.join(",")`: `null` elements become empty, the others are converted. */
  function JoinItems(items: seq<Json>): (r: Option<string>)
    ensures r.None? <==> exists i :: 0 <= i < |items| && CoercionThrows(items[i])
    ensures |items| == 0 ==> r == Some("")
    decreases items
  {
    if |items| == 0 then Some("")
    else
      var first := if items[0].JNull? then Some("") else ToText(items[0]);
      if |items| == 1 then first
      else
        match (first, JoinItems(items[1..]))
        case (Some(head), Some(tail)) => Some(head + "," + tail)
        case _ => None
  }
}
