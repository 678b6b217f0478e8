/** typedapi/types/matrixstatsaggregate.go: a lenient int64 doc_count beside fields and meta. */
module TypesMatrixStatsAggregate {
  import opened Wrappers
  import opened Strconv
  import opened Json
  import opened Lenient

  /** The MatrixStatsFields items are kept as JSON values; their type is not part of this model. */
  datatype Fields = Fields(docCount: Int64, fields: seq<JsonValue>, meta: map<string, string>)

  function ConvDocCount(v: JsonValue): Lenient<Int64>
  {
    LenientInt(v, "ParseInt")
  }

  function ConvFields(v: JsonValue): Lenient<seq<JsonValue>>
  {
    DecodeList(v, "[]types.MatrixStatsFields")
  }

  function Step(s: Fields, m: Member): Result<Fields, DecodeError>
  {
    match m.key
    case "doc_count" => var n :- Update(ConvDocCount(m.value), s.docCount); Success(s.(docCount := n))
    case "fields" => var f :- Update(ConvFields(m.value), s.fields); Success(s.(fields := f))
    case "meta" => var x :- Update(DecodeMetadata(m.value, s.meta), s.meta); Success(s.(meta := x))
    case _ => Success(s)
  }

  predicate Rejects(m: Member)
  {
    || (m.key == "doc_count" && ConvDocCount(m.value).Reject?)
    || (m.key == "fields" && ConvFields(m.value).Reject?)
    || (m.key == "meta" && !(m.value.JNull? || m.value.JObject?))
  }

  class MatrixStatsAggregate {
    var docCount: Int64
    var fields: seq<JsonValue>
    var meta: map<string, string>

    function Value(): Fields
      reads this
    {
      Fields(docCount, fields, meta)
    }

    constructor ()
      ensures Value() == Fields(0, [], map[])
    {
      docCount, fields, meta := 0, [], map[];
    }

    method UnmarshalJSON(members: seq<Member>) returns (err: Option<DecodeError>)
      modifies this
      ensures Decoded(Value(), err) == DecodeMembers(Step, old(Value()), members)
    {
      var i := 0;
      while i < |members|
        invariant 0 <= i <= |members|
        invariant DecodeMembers(Step, old(Value()), members) == DecodeMembers(Step, Value(), members[i..])
      {
        var m := members[i];
        assert members[i..][1..] == members[i + 1..];
        match m.key {
          case "doc_count" =>
            match ConvDocCount(m.value) {
              case Reject(e) => return Some(e);
              case Assign(n) => docCount := n;
              case Keep =>
            }
          case "fields" =>
            match ConvFields(m.value) {
              case Reject(e) => return Some(e);
              case Assign(f) => fields := f;
              case Keep =>
            }
          case "meta" =>
            match DecodeMetadata(m.value, meta) {
              case Reject(e) => return Some(e);
              case Assign(x) => meta := x;
              case Keep =>
            }
          case _ =>
        }
        i := i + 1;
      }
      return None;
    }
  }

  /** The doc_count member last assigned sets docCount. */
  lemma DocCountIsLast(s: Fields, ms: seq<Member>)
    ensures var d := DecodeMembers(Step, s, ms);
      d.error.None? ==> d.state.docCount == LastAssigned(ms, "doc_count", ConvDocCount, s.docCount)
  {
    FieldIsLastAssignment(Step, (r: Fields) => r.docCount, "doc_count", ConvDocCount, s, ms);
  }

  /** The fields member last assigned sets fields. */
  lemma FieldsIsLast(s: Fields, ms: seq<Member>)
    ensures var d := DecodeMembers(Step, s, ms);
      d.error.None? ==> d.state.fields == LastAssigned(ms, "fields", ConvFields, s.fields)
  {
    FieldIsLastAssignment(Step, (r: Fields) => r.fields, "fields", ConvFields, s, ms);
  }

  /** Each meta member merges into the map already held, so meta ends as the meta members merged in order. */
  lemma MetaIsMerged(s: Fields, ms: seq<Member>)
    ensures var d := DecodeMembers(Step, s, ms);
      d.error.None? ==> d.state.meta == LastMerged(ms, "meta", DecodeMetadata, s.meta)
  {
    FieldIsLastMerge(Step, (r: Fields) => r.meta, "meta", DecodeMetadata, s, ms);
  }

  /**
   * Decoding fails exactly when doc_count is a malformed int64 string,
   * fields is neither an array nor null, or meta is neither an object nor
   * null; otherwise doc_count and fields are at their last assignment and
   * meta holds every meta object merged in order.
   */
  lemma DecodeMeaning(s: Fields, ms: seq<Member>)
    ensures DecodeMembers(Step, s, ms).error.None? <==> forall i :: 0 <= i < |ms| ==> !Rejects(ms[i])
    ensures var d := DecodeMembers(Step, s, ms);
      d.error.None? ==>
        && d.state.docCount == LastAssigned(ms, "doc_count", ConvDocCount, s.docCount)
        && d.state.fields == LastAssigned(ms, "fields", ConvFields, s.fields)
        && d.state.meta == LastMerged(ms, "meta", DecodeMetadata, s.meta)
  {
    ErrorIffRejected(Step, Rejects, s, ms);
    DocCountIsLast(s, ms);
    FieldsIsLast(s, ms);
    MetaIsMerged(s, ms);
  }


  /** A meta object adds its entries, as raw text, to the map already decoded; null clears it. */
  lemma MetaMerges(s: Fields, ms: seq<Member>)
    ensures Step(s, Member("meta", JObject(ms))) == Success(s.(meta := s.meta + RawMap(ms)))
    ensures Step(s, Member("meta", JNull)) == Success(s.(meta := map[]))
  {
  }
}
