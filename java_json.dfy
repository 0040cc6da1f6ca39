/** JSON values as the Java frontend receives them: Jackson decodes a JSON
    object into a `Map<String, Object>` whose values are boxed Java objects.
    The two mappers of the services read fields out of such maps with
    `instanceof` tests and casts; those reads are defined here once. */
module JavaJson {
  import opened Common
  import opened Exceptions

  /** The Java object Jackson produces for a JSON value. */
  datatype JValue =
    | JNull
    | JBoolean(b: bool)
    | JInteger(i: int)       // java.lang.Integer
    | JLong(l: int)          // java.lang.Long
    | JBigInteger(n: int)    // java.math.BigInteger
    | JDouble(d: real)       // java.lang.Double
    | JString(s: string)
    | JList(items: seq<JValue>)
    | JMap(fields: map<string, JValue>)

  /** A decoded JSON object, `Map<String, Object>`. */
  type JsonObject = map<string, JValue>

  const IntMin: int := -0x8000_0000
  const IntMax: int := 0x7FFF_FFFF
  const LongMin: int := -0x8000_0000_0000_0000
  const LongMax: int := 0x7FFF_FFFF_FFFF_FFFF

  /** The box Jackson picks for a JSON integer literal: the smallest of
      Integer, Long and BigInteger that holds it. */
  function JacksonInteger(n: int): (v: JValue)
    ensures v.JInteger? <==> IntMin <= n <= IntMax
    ensures v.JLong? <==> (LongMin <= n <= LongMax && !(IntMin <= n <= IntMax))
    ensures v == JInteger(n) || v == JLong(n) || v == JBigInteger(n)
  {
    if IntMin <= n <= IntMax then JInteger(n)
    else if LongMin <= n <= LongMax then JLong(n)
    else JBigInteger(n)
  }

  /** A `ClassCastException` from a `(String)` cast. */
  const BadCast := Exc(ClassCast, None, None)

  /** How both mappers read the `"id"` field: an Integer or Long is taken as
      is, a String goes through `Long.parseLong` (given as `parseLong`, whose
      failure is a NumberFormatException), anything else leaves the id null. */
  function ReadId(m: JsonObject, parseLong: string -> Option<int>): (r: Result<Option<int>, Exc>)
    ensures "id" !in m ==> r == Ok(None)
    ensures r.Err? <==> "id" in m && m["id"].JString? && parseLong(m["id"].s).None?
    ensures r.Err? ==> r.error.kind == NumberFormat
    ensures r.Ok? && r.value.Some? ==>
              "id" in m && (m["id"] == JInteger(r.value.value) || m["id"] == JLong(r.value.value)
                            || (m["id"].JString? && parseLong(m["id"].s) == r.value))
  {
    if "id" !in m then Ok(None)
    else match m["id"]
      case JInteger(n) => Ok(Some(n))
      case JLong(n) => Ok(Some(n))
      case JString(s) =>
        (match parseLong(s)
         case Some(n) => Ok(Some(n))
         case None => Err(Exc(NumberFormat, None, None)))
      case _ => Ok(None)
  }

  /** `(String) map.get(key)` for a key known to be present: a string, or
      null; any other box fails the cast. */
  function CastString(v: JValue): (r: Result<Option<string>, Exc>)
    ensures r.Ok? <==> v.JString? || v.JNull?
    ensures v.JString? ==> r == Ok(Some(v.s))
    ensures v.JNull? ==> r == Ok(None)
  {
    match v
    case JString(s) => Ok(Some(s))
    case JNull => Ok(None)
    case _ => Err(BadCast)
  }

  /** An optional integer field read with `instanceof Integer` only. */
  function IntegerField(m: JsonObject, key: string): (r: Option<int>)
    ensures r.Some? <==> key in m && m[key].JInteger?
    ensures r.Some? ==> m[key] == JInteger(r.value)
  {
    if key in m && m[key].JInteger? then Some(m[key].i) else None
  }

  /** An optional id field read with `instanceof Integer` or `instanceof Long`. */
  function IntegerOrLongField(m: JsonObject, key: string): (r: Option<int>)
    ensures r.Some? <==> key in m && (m[key].JInteger? || m[key].JLong?)
    ensures r.Some? ==> m[key] == JInteger(r.value) || m[key] == JLong(r.value)
  {
    if key in m && m[key].JInteger? then Some(m[key].i)
    else if key in m && m[key].JLong? then Some(m[key].l)
    else None
  }
}
