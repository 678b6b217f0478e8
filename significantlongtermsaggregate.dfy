/**
 * typedapi/types/significantlongtermsaggregate.go: optional lenient counts,
 * and buckets that are either keyed by name or listed.
 */
module TypesSignificantLongTermsAggregate {
  import opened Wrappers
  import opened Strconv
  import opened Json
  import opened Lenient

  /**
   * BucketsSignificantLongTermsBucket: unset, a map from key to bucket, or a
   * list of buckets. Buckets are kept as JSON values; the bucket type is not
   * part of this model.
   */
  datatype Buckets = Unset | Keyed(byKey: map<string, JsonValue>) | Listed(items: seq<JsonValue>)

  datatype Fields = Fields(
    bgCount: Option<Int64>,
    buckets: Buckets,
    docCount: Option<Int64>,
    meta: map<string, string>)

  /** The members of an object as a map, later keys winning (a fresh Go map). */
  function ValueMap(ms: seq<Member>): map<string, JsonValue>
  {
    if ms == [] then map[] else ValueMap(ms[..|ms| - 1])[ms[|ms| - 1].key := ms[|ms| - 1].value]
  }

  function ConvCount(v: JsonValue): Lenient<Option<Int64>>
  {
    Optional(LenientInt(v, "ParseInt"))
  }

  /** The shape of buckets is chosen by the first byte of the value's raw text. */
  function ConvBuckets(v: JsonValue): Lenient<Buckets>
  {
    var raw := Render(v);
    if raw[0] == '{' then Assign(Keyed(ValueMap(v.members)))
    else if raw[0] == '[' then Assign(Listed(v.items))
    else Keep
  }

  function Step(s: Fields, m: Member): Result<Fields, DecodeError>
  {
    match m.key
    case "bg_count" => var n :- Update(ConvCount(m.value), s.bgCount); Success(s.(bgCount := n))
    case "buckets" => var b :- Update(ConvBuckets(m.value), s.buckets); Success(s.(buckets := b))
    case "doc_count" => var n :- Update(ConvCount(m.value), s.docCount); Success(s.(docCount := n))
    case "meta" => var x :- Update(DecodeMetadata(m.value, s.meta), s.meta); Success(s.(meta := x))
    case _ => Success(s)
  }

  predicate Rejects(m: Member)
  {
    || (m.key in {"bg_count", "doc_count"} && LenientInt(m.value, "ParseInt").Reject?)
    || (m.key == "meta" && !(m.value.JNull? || m.value.JObject?))
  }

  class SignificantLongTermsAggregate {
    var bgCount: Option<Int64>
    var buckets: Buckets
    var docCount: Option<Int64>
    var meta: map<string, string>

    function Value(): Fields
      reads this
    {
      Fields(bgCount, buckets, docCount, meta)
    }

    /** NewSignificantLongTermsAggregate: every field unset. */
    constructor ()
      ensures Value() == Fields(None, Unset, None, map[])
    {
      bgCount, buckets, docCount, meta := None, Unset, None, map[];
    }

    method UnmarshalJSON(members: seq<Member>) returns (err: Option<DecodeError>)
      modifies this
      ensures Decoded(Value(), err) == DecodeMembers(Step, old(Value()), members)
    {
      var i := 0;
      while i < |members|
        invariant 0 <= i <= |members|
        invariant DecodeMembers(Step, old(Value()), members) == DecodeMembers(Step, Value(), members[i..])
      {
        var m := members[i];
        assert members[i..][1..] == members[i + 1..];
        match m.key {
          case "bg_count" =>
            match LenientInt(m.value, "ParseInt") {
              case Reject(e) => return Some(e);
              case Assign(n) => bgCount := Some(n);
              case Keep =>
            }
          case "buckets" =>
            var raw := Render(m.value);
            if raw[0] == '{' {
              buckets := Keyed(ValueMap(m.value.members));
            } else if raw[0] == '[' {
              buckets := Listed(m.value.items);
            }
          case "doc_count" =>
            match LenientInt(m.value, "ParseInt") {
              case Reject(e) => return Some(e);
              case Assign(n) => docCount := Some(n);
              case Keep =>
            }
          case "meta" =>
            match DecodeMetadata(m.value, meta) {
              case Reject(e) => return Some(e);
              case Assign(x) => meta := x;
              case Keep =>
            }
          case _ =>
        }
        i := i + 1;
      }
      return None;
    }
  }

  /** The bg_count member last assigned sets bgCount. */
  lemma BgCountIsLast(s: Fields, ms: seq<Member>)
    ensures var d := DecodeMembers(Step, s, ms);
      d.error.None? ==> d.state.bgCount == LastAssigned(ms, "bg_count", ConvCount, s.bgCount)
  {
    FieldIsLastAssignment(Step, (r: Fields) => r.bgCount, "bg_count", ConvCount, s, ms);
  }

  /** The buckets member last assigned sets buckets. */
  lemma BucketsIsLast(s: Fields, ms: seq<Member>)
    ensures var d := DecodeMembers(Step, s, ms);
      d.error.None? ==> d.state.buckets == LastAssigned(ms, "buckets", ConvBuckets, s.buckets)
  {
    FieldIsLastAssignment(Step, (r: Fields) => r.buckets, "buckets", ConvBuckets, s, ms);
  }

  /** The doc_count member last assigned sets docCount. */
  lemma DocCountIsLast(s: Fields, ms: seq<Member>)
    ensures var d := DecodeMembers(Step, s, ms);
      d.error.None? ==> d.state.docCount == LastAssigned(ms, "doc_count", ConvCount, s.docCount)
  {
    FieldIsLastAssignment(Step, (r: Fields) => r.docCount, "doc_count", ConvCount, s, ms);
  }

  /** Each meta member merges into the map already held, so meta ends as the meta members merged in order. */
  lemma MetaIsMerged(s: Fields, ms: seq<Member>)
    ensures var d := DecodeMembers(Step, s, ms);
      d.error.None? ==> d.state.meta == LastMerged(ms, "meta", DecodeMetadata, s.meta)
  {
    FieldIsLastMerge(Step, (r: Fields) => r.meta, "meta", DecodeMetadata, s, ms);
  }

  /**
   * Decoding fails exactly when a count is a malformed int64 string or meta
   * is neither an object nor null; otherwise each count is at its last
   * assignment (present once a number or a numeric string was seen),
   * buckets at the last object or array given, and meta holds every meta
   * object merged in order.
   */
  lemma DecodeMeaning(s: Fields, ms: seq<Member>)
    ensures DecodeMembers(Step, s, ms).error.None? <==> forall i :: 0 <= i < |ms| ==> !Rejects(ms[i])
    ensures var d := DecodeMembers(Step, s, ms);
      d.error.None? ==>
        && d.state.bgCount == LastAssigned(ms, "bg_count", ConvCount, s.bgCount)
        && d.state.buckets == LastAssigned(ms, "buckets", ConvBuckets, s.buckets)
        && d.state.docCount == LastAssigned(ms, "doc_count", ConvCount, s.docCount)
        && d.state.meta == LastMerged(ms, "meta", DecodeMetadata, s.meta)
  {
    ErrorIffRejected(Step, Rejects, s, ms);
    BgCountIsLast(s, ms);
    BucketsIsLast(s, ms);
    DocCountIsLast(s, ms);
    MetaIsMerged(s, ms);
  }


  /** An object makes keyed buckets, an array listed buckets, and any other kind leaves them. */
  lemma BucketsShape(s: Fields, v: JsonValue)
    ensures Step(s, Member("buckets", v)).Success?
    ensures var b := Step(s, Member("buckets", v)).value.buckets;
      && (v.JObject? ==> b == Keyed(ValueMap(v.members)))
      && (v.JArray? ==> b == Listed(v.items))
      && (!v.JObject? && !v.JArray? ==> b == s.buckets)
  {
  }
}
