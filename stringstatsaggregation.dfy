/** typedapi/types/stringstatsaggregation.go: optional fields with a lenient show_distribution flag. */
module TypesStringStatsAggregation {
  import opened Wrappers
  import opened Json
  import opened Lenient

  /** Field and ShowDistribution are Go pointers; Missing and Script are interface{} unions. */
  datatype Fields = Fields(
    field: Option<string>,
    missing: Option<JsonValue>,
    script: Option<JsonValue>,
    showDistribution: Option<bool>)

  function ConvShowDistribution(v: JsonValue): Lenient<Option<bool>>
  {
    Optional(LenientBool(v))
  }

  function Step(s: Fields, m: Member): Result<Fields, DecodeError>
  {
    match m.key
    case "field" => var f :- Update(DecodeOptString(m.value), s.field); Success(s.(field := f))
    case "missing" => var x :- Update(DecodeAny(m.value), s.missing); Success(s.(missing := x))
    case "script" => var x :- Update(DecodeAny(m.value), s.script); Success(s.(script := x))
    case "show_distribution" =>
      var b :- Update(ConvShowDistribution(m.value), s.showDistribution); Success(s.(showDistribution := b))
    case _ => Success(s)
  }

  /** A field that is neither a string nor null, or a show_distribution string ParseBool rejects. */
  predicate Rejects(m: Member)
  {
    || (m.key == "field" && DecodeOptString(m.value).Reject?)
    || (m.key == "show_distribution" && LenientBool(m.value).Reject?)
  }

  class StringStatsAggregation {
    var field: Option<string>
    var missing: Option<JsonValue>
    var script: Option<JsonValue>
    var showDistribution: Option<bool>

    function Value(): Fields
      reads this
    {
      Fields(field, missing, script, showDistribution)
    }

    /** NewStringStatsAggregation: every field unset. */
    constructor ()
      ensures Value() == Fields(None, None, None, None)
    {
      field, missing, script, showDistribution := None, None, None, None;
    }

    method UnmarshalJSON(members: seq<Member>) returns (err: Option<DecodeError>)
      modifies this
      ensures Decoded(Value(), err) == DecodeMembers(Step, old(Value()), members)
    {
      var i := 0;
      while i < |members|
        invariant 0 <= i <= |members|
        invariant DecodeMembers(Step, old(Value()), members) == DecodeMembers(Step, Value(), members[i..])
      {
        var m := members[i];
        assert members[i..][1..] == members[i + 1..];
        match m.key {
          case "field" =>
            match DecodeOptString(m.value) {
              case Reject(e) => return Some(e);
              case Assign(f) => field := f;
              case Keep =>
            }
          case "missing" =>
            match DecodeAny(m.value) {
              case Reject(e) => return Some(e);
              case Assign(x) => missing := x;
              case Keep =>
            }
          case "script" =>
            match DecodeAny(m.value) {
              case Reject(e) => return Some(e);
              case Assign(x) => script := x;
              case Keep =>
            }
          case "show_distribution" =>
            match LenientBool(m.value) {
              case Reject(e) => return Some(e);
              case Assign(b) => showDistribution := Some(b);
              case Keep =>
            }
          case _ =>
        }
        i := i + 1;
      }
      return None;
    }
  }

  /** The field member last assigned sets field. */
  lemma FieldIsLast(s: Fields, ms: seq<Member>)
    ensures var d := DecodeMembers(Step, s, ms);
      d.error.None? ==> d.state.field == LastAssigned(ms, "field", DecodeOptString, s.field)
  {
    FieldIsLastAssignment(Step, (r: Fields) => r.field, "field", DecodeOptString, s, ms);
  }

  /** The missing member last assigned sets missing. */
  lemma MissingIsLast(s: Fields, ms: seq<Member>)
    ensures var d := DecodeMembers(Step, s, ms);
      d.error.None? ==> d.state.missing == LastAssigned(ms, "missing", DecodeAny, s.missing)
  {
    FieldIsLastAssignment(Step, (r: Fields) => r.missing, "missing", DecodeAny, s, ms);
  }

  /** The script member last assigned sets script. */
  lemma ScriptIsLast(s: Fields, ms: seq<Member>)
    ensures var d := DecodeMembers(Step, s, ms);
      d.error.None? ==> d.state.script == LastAssigned(ms, "script", DecodeAny, s.script)
  {
    FieldIsLastAssignment(Step, (r: Fields) => r.script, "script", DecodeAny, s, ms);
  }

  /** The show_distribution member last assigned sets showDistribution. */
  lemma ShowDistributionIsLast(s: Fields, ms: seq<Member>)
    ensures var d := DecodeMembers(Step, s, ms);
      d.error.None? ==> d.state.showDistribution == LastAssigned(ms, "show_distribution", ConvShowDistribution, s.showDistribution)
  {
    FieldIsLastAssignment(Step, (r: Fields) => r.showDistribution, "show_distribution", ConvShowDistribution, s, ms);
  }

  /**
   * Decoding fails exactly when field has a kind other than string or null,
   * or show_distribution is a malformed boolean string; otherwise every
   * field is at its last assignment, and show_distribution stays absent
   * unless a bool or a boolean string was given.
   */
  lemma DecodeMeaning(s: Fields, ms: seq<Member>)
    ensures DecodeMembers(Step, s, ms).error.None? <==> forall i :: 0 <= i < |ms| ==> !Rejects(ms[i])
    ensures var d := DecodeMembers(Step, s, ms);
      d.error.None? ==>
        && d.state.field == LastAssigned(ms, "field", DecodeOptString, s.field)
        && d.state.missing == LastAssigned(ms, "missing", DecodeAny, s.missing)
        && d.state.script == LastAssigned(ms, "script", DecodeAny, s.script)
        && d.state.showDistribution == LastAssigned(ms, "show_distribution", ConvShowDistribution, s.showDistribution)
  {
    ErrorIffRejected(Step, Rejects, s, ms);
    FieldIsLast(s, ms);
    MissingIsLast(s, ms);
    ScriptIsLast(s, ms);
    ShowDistributionIsLast(s, ms);
  }

}
