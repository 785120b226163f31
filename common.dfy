/**
 * Values shared by the three components: optional and fallible results,
 * the JSON values that cross the database and the assistant stream, and the
 * decimal rendering that JavaScript template strings apply to a count.
 */
module Common {

  datatype Option<+T> = None | Some(value: T)

  /** A computation that either produced a value or threw an error with that message. */
  datatype Result<+T> = Success(value: T) | Failure(message: string)

  /** A JSON value as produced by `JSON.parse` or consumed by `JSON.stringify` (numbers kept integral). */
  datatype Json =
    | JNull
    | JBool(b: bool)
    | JNumber(n: int)
    | JString(s: string)
    | JArray(items: seq<Json>)
    | JObject(fields: seq<(string, Json)>)

  /** Property access `value.key`: `None` stands for `undefined`. A parsed object keeps the last duplicate. */
  function Field(value: Json, key: string): (r: Option<Json>)
    ensures r.Some? ==> value.JObject? && exists i :: 0 <= i < |value.fields| && value.fields[i] == (key, r.value)
    ensures value.JObject? && (exists i :: 0 <= i < |value.fields| && value.fields[i].0 == key) ==> r.Some?
    decreases if value.JObject? then |value.fields| else 0
  {
    if !value.JObject? || value.fields == [] then None
    else
      var last := value.fields[|value.fields| - 1];
      if last.0 == key then Some(last.1)
      else
        var r := Field(JObject(value.fields[..|value.fields| - 1]), key);
        assert forall i :: 0 <= i < |value.fields| - 1 ==> value.fields[..|value.fields| - 1][i] == value.fields[i];
        r
  }

  /** Of several fields with the same key, the value of the last one is read, as `JSON.parse` keeps it. */
  lemma {:induction false} FieldLastWins(value: Json, key: string, i: nat)
    requires value.JObject? && i < |value.fields| && value.fields[i].0 == key
    requires forall j :: i < j < |value.fields| ==> value.fields[j].0 != key
    ensures Field(value, key) == Some(value.fields[i].1)
    decreases |value.fields|
  {
    var n := |value.fields|;
    if i < n - 1 {
      var front := JObject(value.fields[..n - 1]);
      assert front.fields[i] == value.fields[i];
      assert forall j :: i < j < |front.fields| ==> front.fields[j] == value.fields[j];
      FieldLastWins(front, key, i);
    }
  }

  /** JavaScript truthiness of a property read (`undefined` is falsy). */
  predicate Truthy(v: Option<Json>) {
    match v
    case None => false
    case Some(JNull) => false
    case Some(JBool(b)) => b
    case Some(JNumber(n)) => n != 0
    case Some(JString(s)) => s != ""
    case Some(_) => true
  }

  predicate IsDigit(c: char) {
    '0' <= c <= '9'
  }

  function DigitChar(d: nat): (c: char)
    requires d < 10
    ensures IsDigit(c)
  {
    ('0' as int + d) as char
  }

  /** The decimal text `${n}` that a template string gives a non-negative integer. */
  function NatToDecimal(n: nat): (s: string)
    ensures |s| > 0
    ensures forall i :: 0 <= i < |s| ==> IsDigit(s[i])
    ensures n > 0 ==> s[0] != '0'
  {
    if n < 10 then [DigitChar(n)] else NatToDecimal(n / 10) + [DigitChar(n % 10)]
  }

  /** The number a string of decimal digits denotes. */
  function DecimalValue(s: string): nat
    requires forall i :: 0 <= i < |s| ==> IsDigit(s[i])
  {
    if s == [] then 0
    else
      assert IsDigit(s[|s| - 1]);
      DecimalValue(s[..|s| - 1]) * 10 + (s[|s| - 1] as int - '0' as int)
  }

  /** Reading the decimal rendering back gives the number again. */
  lemma {:induction false} DecimalRoundTrip(n: nat)
    ensures DecimalValue(NatToDecimal(n)) == n
  {
    var s := NatToDecimal(n);
    if n >= 10 {
      DecimalRoundTrip(n / 10);
      assert s[..|s| - 1] == NatToDecimal(n / 10);
    }
  }

  /** Distinct numbers have distinct decimal renderings. */
  lemma DecimalInjective(a: nat, b: nat)
    requires NatToDecimal(a) == NatToDecimal(b)
    ensures a == b
  {
    DecimalRoundTrip(a);
    DecimalRoundTrip(b);
  }
}
