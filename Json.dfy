/** JSON values as Newtonsoft's JToken tree holds them, and the one conversion
    the server applies to them (`JToken.Value<string>()`). */
module Json {
  import opened Wrappers

  /** A JSON value. Numbers are integers; objects map member names to values. */
  datatype Json =
    | JNull
    | JBool(b: bool)
    | JInt(n: int)
    | JStr(s: string)
    | JArr(items: seq<Json>)
    | JObj(fields: map<string, Json>)

  /** A JObject: member name to value. */
  type Object = map<string, Json>

  /** The member `key` of an optional object (`obj?[key]`): absent when the
      object is null or has no such member. */
  function Member(obj: Option<Object>, key: string): (t: Option<Json>)
    ensures t.Some? <==> obj.Some? && key in obj.value
    ensures t.Some? ==> t.value == obj.value[key]
  {
    if obj.Some? && key in obj.value then Some(obj.value[key]) else None
  }

  /** What `token?.Value<string>()` yields: no string (a null reference or a
      JSON null), a string, or an InvalidCastException for an object, an array
      or an integer beyond 64 bits. */
  datatype StringValue = NoString | Text(s: string) | CastFails

  /** The range of a 64-bit integer. A literal outside it is read as a
      BigInteger, which `Value<string>()` cannot convert. */
  const Int64Min := -0x8000_0000_0000_0000
  const Int64Max := 0x7FFF_FFFF_FFFF_FFFF

  predicate FitsInt64(n: int)
  {
    Int64Min <= n <= Int64Max
  }

  /** `Value<string>()`: a string as it is, a JSON null as null, a 64-bit
      integer or a boolean converted to its invariant-culture text; a
      container, or an integer too large for 64 bits, is refused. */
  function StringValueOf(t: Option<Json>): (v: StringValue)
    ensures v.CastFails? <==>
      t.Some? && (t.value.JArr? || t.value.JObj? || (t.value.JInt? && !FitsInt64(t.value.n)))
    ensures t.Some? && t.value.JInt? && FitsInt64(t.value.n) ==> v == Text(IntText(t.value.n))
    ensures v.NoString? <==> t.None? || t.value.JNull?
    ensures t.Some? && t.value.JStr? ==> v == Text(t.value.s)
  {
    match t
    case None => NoString
    case Some(JNull) => NoString
    case Some(JStr(s)) => Text(s)
    case Some(JInt(n)) => if FitsInt64(n) then Text(IntText(n)) else CastFails
    case Some(JBool(b)) => Text(if b then "True" else "False")
    case Some(JArr(_)) => CastFails
    case Some(JObj(_)) => CastFails
  }

  /** The number a string of decimal digits denotes. */
  function DigitsValue(s: string): nat
    requires forall i :: 0 <= i < |s| ==> '0' <= s[i] <= '9'
  {
    if s == [] then 0 else DigitsValue(s[..|s| - 1]) * 10 + (s[|s| - 1] as int - '0' as int)
  }

  /** Decimal digits of a natural number, most significant first. */
  function NatText(n: nat): (r: string)
    ensures |r| > 0
    ensures forall i :: 0 <= i < |r| ==> '0' <= r[i] <= '9'
    ensures DigitsValue(r) == n
  {
    var d := ['0' + (n % 10) as char];
    if n < 10 then d else NatText(n / 10) + d
  }

  /** Decimal text of an integer, with a leading '-' when negative. */
  function IntText(n: int): (r: string)
    ensures |r| > 0
    ensures (r[0] == '-') <==> n < 0
    ensures forall i :: (if n < 0 then 1 else 0) <= i < |r| ==> '0' <= r[i] <= '9'
    ensures n < 0 ==> DigitsValue(r[1..]) == -n
    ensures n >= 0 ==> DigitsValue(r) == n
  {
    if n < 0 then "-" + NatText(-n) else NatText(n)
  }
}
