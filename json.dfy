/**
 * JSON values as the decoders see them once the tokenizer has done its work,
 * and their raw text (what json.RawMessage keeps).
 */
module Json {
  import opened Strconv
  import opened Strings

  /** A JSON value; numbers are integers that fit in 64 bits. */
  datatype JsonValue =
    | JNull
    | JBool(b: bool)
    | JNumber(n: Int64)
    | JString(s: string)
    | JArray(items: seq<JsonValue>)
    | JObject(members: seq<Member>)

  /** One key/value pair of a JSON object, in document order. */
  datatype Member = Member(key: string, value: JsonValue)

  function Quote(s: string): string
  {
    "\"" + s + "\""
  }

  /**
   * The raw text of a value. Its first character tells the kinds apart the
   * way the decoders do: '{' exactly for objects, '[' exactly for arrays,
   * and a string keeps its quotes.
   */
  function Render(v: JsonValue): (r: string)
    ensures |r| > 0
    ensures r[0] == '{' <==> v.JObject?
    ensures r[0] == '[' <==> v.JArray?
    ensures v.JString? ==> r == Quote(v.s)
    decreases v
  {
    match v
    case JNull => "null"
    case JBool(b) => FormatBool(b)
    case JNumber(n) => Itoa(n)
    case JString(s) => Quote(s)
    case JArray(items) =>
      "[" + Join(seq(|items|, i requires 0 <= i < |items| => Render(items[i])), ",") + "]"
    case JObject(ms) =>
      "{" + Join(seq(|ms|, i requires 0 <= i < |ms| => Quote(ms[i].key) + ":" + Render(ms[i].value)), ",") + "}"
  }

  /** The word Go's json package uses for a value's kind in an UnmarshalTypeError. */
  function KindName(v: JsonValue): string
  {
    match v
    case JNull => "null"
    case JBool(_) => "bool"
    case JNumber(_) => "number"
    case JString(_) => "string"
    case JArray(_) => "array"
    case JObject(_) => "object"
  }
}
