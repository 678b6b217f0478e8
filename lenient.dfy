/**
 * The shared shape of the generated UnmarshalJSON methods in typedapi/types:
 * a loop over the object's keys in which each known key converts its value
 * into one field, and the first conversion error ends decoding.
 */
module Lenient {
  import opened Wrappers
  import opened Strconv
  import opened Json

  datatype DecodeError =
    | Num(e: NumError)                             // a strconv error, returned as is
    | TypeMismatch(value: string, goType: string)  // json.UnmarshalTypeError

  /** What one value does to its field: overwrite it, leave it, or fail. */
  datatype Lenient<T> = Assign(value: T) | Keep | Reject(error: DecodeError)

  function Update<T>(l: Lenient<T>, current: T): Result<T, DecodeError>
  {
    match l
    case Assign(x) => Success(x)
    case Keep => Success(current)
    case Reject(e) => Failure(e)
  }

  /** Wraps an assigned value for a pointer field (*T set to &value). */
  function Optional<T>(l: Lenient<T>): Lenient<Option<T>>
  {
    match l
    case Assign(x) => Assign(Some(x))
    case Keep => Keep
    case Reject(e) => Reject(e)
  }

  /**
   * An integer field decoded into interface{} and switched on its type: a
   * string is parsed in base 10 (func is "Atoi" or "ParseInt"), a number is
   * taken as is, and any other kind leaves the field alone.
   */
  function LenientInt(v: JsonValue, func: string): Lenient<Int64>
  {
    match v
    case JString(s) =>
      (match ParseInt(s, func)
       case Success(n) => Assign(n)
       case Failure(e) => Reject(Num(e)))
    case JNumber(n) => Assign(n)
    case _ => Keep
  }

  /**
   * A string is taken by its decimal value exactly when it is an optional
   * sign followed by one or more digits whose value fits in 64 bits; any
   * other string is an error naming the function and the input.
   */
  lemma LenientIntRules(v: JsonValue, func: string)
    requires v.JString?
    ensures LenientInt(v, func).Assign? <==>
      Unsigned(v.s) != [] && AllDigits(Unsigned(v.s)) && MinInt64 <= SignedValue(v.s) <= MaxInt64
    ensures LenientInt(v, func).Assign? ==> LenientInt(v, func).value == SignedValue(v.s)
    ensures !LenientInt(v, func).Assign? ==> LenientInt(v, func) == Reject(Num(NumError(func, v.s)))
  {
  }

  /** The decimal string of an integer and the integer itself decode to the same value. */
  lemma StringOrNumber(n: Int64, func: string)
    ensures LenientInt(JString(Itoa(n)), func) == LenientInt(JNumber(n), func) == Assign(n)
  {
    ParseItoa(n, func);
  }

  /** A boolean field: a string goes through ParseBool, a bool is taken, anything else is ignored. */
  function LenientBool(v: JsonValue): Lenient<bool>
  {
    match v
    case JString(s) =>
      (match ParseBool(s)
       case Success(b) => Assign(b)
       case Failure(e) => Reject(Num(e)))
    case JBool(b) => Assign(b)
    case _ => Keep
  }

  /**
   * A string is taken as true exactly for the six spellings of true that
   * ParseBool accepts, as false exactly for the six of false, and any
   * other string is an error naming the input.
   */
  lemma LenientBoolRules(v: JsonValue)
    requires v.JString?
    ensures LenientBool(v) == Assign(true) <==> v.s in {"1", "t", "T", "TRUE", "true", "True"}
    ensures LenientBool(v) == Assign(false) <==> v.s in {"0", "f", "F", "FALSE", "false", "False"}
    ensures !LenientBool(v).Assign? ==> LenientBool(v) == Reject(Num(NumError("ParseBool", v.s)))
  {
  }

  /** "true" and "false" decode like the booleans they name. */
  lemma StringOrBool(b: bool)
    ensures LenientBool(JString(FormatBool(b))) == LenientBool(JBool(b)) == Assign(b)
  {
    ParseFormatBool(b);
  }

  /** dec.Decode into a *string field: null clears it, a string sets it, other kinds are a type error. */
  function DecodeOptString(v: JsonValue): Lenient<Option<string>>
  {
    match v
    case JNull => Assign(None)
    case JString(s) => Assign(Some(s))
    case _ => Reject(TypeMismatch(KindName(v), "string"))
  }

  /** dec.Decode into a string field: null is a no-op. */
  function DecodeString(v: JsonValue): Lenient<string>
  {
    match v
    case JNull => Keep
    case JString(s) => Assign(s)
    case _ => Reject(TypeMismatch(KindName(v), "string"))
  }

  /**
   * dec.Decode into a []string that already holds current: null empties it;
   * an array of strings and nulls is decoded element by element into the
   * slice, so a null element keeps the string already at its index ("" past
   * the end), and the slice is cut to the array's length.
   */
  function DecodeStringList(v: JsonValue, current: seq<string>): Lenient<seq<string>>
  {
    match v
    case JNull => Assign([])
    case JArray(items) =>
      if forall i :: 0 <= i < |items| ==> items[i].JString? || items[i].JNull? then
        Assign(seq(|items|, i requires 0 <= i < |items| =>
          if items[i].JString? then items[i].s else if i < |current| then current[i] else ""))
      else Reject(TypeMismatch("array", "[]string"))
    case _ => Reject(TypeMismatch(KindName(v), "[]string"))
  }

  /**
   * dec.Decode into a slice of a struct type whose own decoding is not part
   * of this model: null empties it, an array keeps its elements, any other
   * kind is a type error.
   */
  function DecodeList(v: JsonValue, goType: string): Lenient<seq<JsonValue>>
  {
    match v
    case JNull => Assign([])
    case JArray(items) => Assign(items)
    case _ => Reject(TypeMismatch(KindName(v), goType))
  }

  /** dec.Decode into an interface{} field: any value is accepted, null clears it. */
  function DecodeAny(v: JsonValue): Lenient<Option<JsonValue>>
  {
    if v.JNull? then Assign(None) else Assign(Some(v))
  }

  /** The members of an object as a map from key to raw text, later keys winning. */
  function RawMap(ms: seq<Member>): map<string, string>
  {
    if ms == [] then map[] else RawMap(ms[..|ms| - 1])[ms[|ms| - 1].key := Render(ms[|ms| - 1].value)]
  }

  /**
   * dec.Decode into types.Metadata (map[string]json.RawMessage): null makes
   * it nil, an object adds its entries to the map already there, and any
   * other kind is a type error.
   */
  function DecodeMetadata(v: JsonValue, current: map<string, string>): Lenient<map<string, string>>
  {
    match v
    case JNull => Assign(map[])
    case JObject(ms) => Assign(current + RawMap(ms))
    case _ => Reject(TypeMismatch(KindName(v), "types.Metadata"))
  }

  /** The end of one UnmarshalJSON call: the fields as left, and the error returned. */
  datatype Decoded<R> = Decoded(state: R, error: Option<DecodeError>)

  /**
   * The token loop of UnmarshalJSON over a flat list of members: each member
   * is handled by step in order; the first failure is returned with the
   * fields as the earlier members left them; reaching the end returns nil.
   */
  function DecodeMembers<R>(step: (R, Member) -> Result<R, DecodeError>, s: R, ms: seq<Member>): Decoded<R>
    decreases |ms|
  {
    if ms == [] then Decoded(s, None)
    else
      match step(s, ms[0])
      case Success(next) => DecodeMembers(step, next, ms[1..])
      case Failure(e) => Decoded(s, Some(e))
  }

  /** The value a field ends with: its last assignment by a member with that key, else current. */
  function LastAssigned<T>(ms: seq<Member>, key: string, conv: JsonValue -> Lenient<T>, current: T): T
    decreases |ms|
  {
    if ms == [] then current
    else
      var next := if ms[0].key == key && conv(ms[0].value).Assign? then conv(ms[0].value).value else current;
      LastAssigned(ms[1..], key, conv, next)
  }

  /**
   * When only members with key change the field proj, and each does so as
   * conv says, a successful decode leaves the field at its last assignment:
   * later members win and other keys change nothing.
   */
  lemma {:induction false} FieldIsLastAssignment<R, T>(
    step: (R, Member) -> Result<R, DecodeError>, proj: R -> T, key: string,
    conv: JsonValue -> Lenient<T>, s: R, ms: seq<Member>)
    requires forall r: R, v: JsonValue :: step(r, Member(key, v)).Success? ==>
      proj(step(r, Member(key, v)).value) == (if conv(v).Assign? then conv(v).value else proj(r))
    requires forall r: R, m: Member :: m.key != key && step(r, m).Success? ==>
      proj(step(r, m).value) == proj(r)
    ensures DecodeMembers(step, s, ms).error.None? ==>
      proj(DecodeMembers(step, s, ms).state) == LastAssigned(ms, key, conv, proj(s))
    decreases |ms|
  {
    if ms != [] && step(s, ms[0]).Success? {
      var next := step(s, ms[0]).value;
      assert ms[0] == Member(ms[0].key, ms[0].value);
      FieldIsLastAssignment(step, proj, key, conv, next, ms[1..]);
    }
  }

  /** The value a field ends with when each member with key merges into what the field already holds. */
  function LastMerged<T>(ms: seq<Member>, key: string, merge: (JsonValue, T) -> Lenient<T>, current: T): T
    decreases |ms|
  {
    if ms == [] then current
    else
      var next := if ms[0].key == key && merge(ms[0].value, current).Assign? then merge(ms[0].value, current).value else current;
      LastMerged(ms[1..], key, merge, next)
  }

  /**
   * When only members with key change the field proj, and each merges its
   * value into the field as merge says, a successful decode leaves the field
   * at the result of merging those members in order.
   */
  lemma {:induction false} FieldIsLastMerge<R, T>(
    step: (R, Member) -> Result<R, DecodeError>, proj: R -> T, key: string,
    merge: (JsonValue, T) -> Lenient<T>, s: R, ms: seq<Member>)
    requires forall r: R, v: JsonValue :: step(r, Member(key, v)).Success? ==>
      proj(step(r, Member(key, v)).value) == (if merge(v, proj(r)).Assign? then merge(v, proj(r)).value else proj(r))
    requires forall r: R, m: Member :: m.key != key && step(r, m).Success? ==>
      proj(step(r, m).value) == proj(r)
    ensures DecodeMembers(step, s, ms).error.None? ==>
      proj(DecodeMembers(step, s, ms).state) == LastMerged(ms, key, merge, proj(s))
    decreases |ms|
  {
    if ms != [] && step(s, ms[0]).Success? {
      var next := step(s, ms[0]).value;
      assert ms[0] == Member(ms[0].key, ms[0].value);
      FieldIsLastMerge(step, proj, key, merge, next, ms[1..]);
    }
  }

  /**
   * When whether a member fails does not depend on the fields, decoding
   * returns nil exactly when no member fails.
   */
  lemma {:induction false} ErrorIffRejected<R>(
    step: (R, Member) -> Result<R, DecodeError>, rejects: Member -> bool, s: R, ms: seq<Member>)
    requires forall r: R, m: Member :: step(r, m).Failure? <==> rejects(m)
    ensures DecodeMembers(step, s, ms).error.None? <==> forall i :: 0 <= i < |ms| ==> !rejects(ms[i])
    decreases |ms|
  {
    if ms != [] && step(s, ms[0]).Success? {
      ErrorIffRejected(step, rejects, step(s, ms[0]).value, ms[1..]);
      assert forall i :: 1 <= i < |ms| ==> ms[i] == ms[1..][i - 1];
    }
  }

  /** Decoding a concatenation decodes the first part, then (if it succeeded) the second from there. */
  lemma {:induction false} DecodeAppend<R>(step: (R, Member) -> Result<R, DecodeError>, s: R, a: seq<Member>, b: seq<Member>)
    ensures var d := DecodeMembers(step, s, a);
      DecodeMembers(step, s, a + b) == if d.error.Some? then d else DecodeMembers(step, d.state, b)
    decreases |a|
  {
    if a != [] {
      assert (a + b)[0] == a[0] && (a + b)[1..] == a[1..] + b;
      if step(s, a[0]).Success? {
        DecodeAppend(step, step(s, a[0]).value, a[1..], b);
      }
    } else {
      assert a + b == b;
    }
  }
}
