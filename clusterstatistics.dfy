/** typedapi/types/clusterstatistics.go: shard counts decoded leniently from strings or numbers. */
module TypesClusterStatistics {
  import opened Wrappers
  import opened Strconv
  import opened Json
  import opened Lenient

  /** The fields of a ClusterStatistics (Go int, 64 bits wide). */
  datatype Fields = Fields(skipped: Int64, successful: Int64, total: Int64)

  function Conv(v: JsonValue): Lenient<Int64>
  {
    LenientInt(v, "Atoi")
  }

  /** One pass of the switch on the key in UnmarshalJSON. */
  function Step(s: Fields, m: Member): Result<Fields, DecodeError>
  {
    match m.key
    case "skipped" => var n :- Update(Conv(m.value), s.skipped); Success(s.(skipped := n))
    case "successful" => var n :- Update(Conv(m.value), s.successful); Success(s.(successful := n))
    case "total" => var n :- Update(Conv(m.value), s.total); Success(s.(total := n))
    case _ => Success(s)
  }

  /** A member that makes UnmarshalJSON return an error: a count given as a malformed string. */
  predicate Rejects(m: Member)
  {
    m.key in {"skipped", "successful", "total"} && Conv(m.value).Reject?
  }

  class ClusterStatistics {
    var skipped: Int64
    var successful: Int64
    var total: Int64

    function Value(): Fields
      reads this
    {
      Fields(skipped, successful, total)
    }

    /** NewClusterStatistics: every count zero. */
    constructor ()
      ensures Value() == Fields(0, 0, 0)
    {
      skipped, successful, total := 0, 0, 0;
    }

    method UnmarshalJSON(members: seq<Member>) returns (err: Option<DecodeError>)
      modifies this
      ensures Decoded(Value(), err) == DecodeMembers(Step, old(Value()), members)
    {
      var i := 0;
      while i < |members|
        invariant 0 <= i <= |members|
        invariant DecodeMembers(Step, old(Value()), members) == DecodeMembers(Step, Value(), members[i..])
      {
        var m := members[i];
        assert members[i..][1..] == members[i + 1..];
        match m.key {
          case "skipped" =>
            match Conv(m.value) {
              case Reject(e) => return Some(e);
              case Assign(n) => skipped := n;
              case Keep =>
            }
          case "successful" =>
            match Conv(m.value) {
              case Reject(e) => return Some(e);
              case Assign(n) => successful := n;
              case Keep =>
            }
          case "total" =>
            match Conv(m.value) {
              case Reject(e) => return Some(e);
              case Assign(n) => total := n;
              case Keep =>
            }
          case _ =>
        }
        i := i + 1;
      }
      return None;
    }
  }

  /** The skipped member last assigned sets skipped. */
  lemma SkippedIsLast(s: Fields, ms: seq<Member>)
    ensures var d := DecodeMembers(Step, s, ms);
      d.error.None? ==> d.state.skipped == LastAssigned(ms, "skipped", Conv, s.skipped)
  {
    FieldIsLastAssignment(Step, (r: Fields) => r.skipped, "skipped", Conv, s, ms);
  }

  /** The successful member last assigned sets successful. */
  lemma SuccessfulIsLast(s: Fields, ms: seq<Member>)
    ensures var d := DecodeMembers(Step, s, ms);
      d.error.None? ==> d.state.successful == LastAssigned(ms, "successful", Conv, s.successful)
  {
    FieldIsLastAssignment(Step, (r: Fields) => r.successful, "successful", Conv, s, ms);
  }

  /** The total member last assigned sets total. */
  lemma TotalIsLast(s: Fields, ms: seq<Member>)
    ensures var d := DecodeMembers(Step, s, ms);
      d.error.None? ==> d.state.total == LastAssigned(ms, "total", Conv, s.total)
  {
    FieldIsLastAssignment(Step, (r: Fields) => r.total, "total", Conv, s, ms);
  }

  /**
   * Decoding fails exactly when some count is a string that is not a decimal
   * int; otherwise each count is its last assignment (a number as is, a
   * string parsed), kinds other than string and number being ignored.
   */
  lemma DecodeMeaning(s: Fields, ms: seq<Member>)
    ensures DecodeMembers(Step, s, ms).error.None? <==> forall i :: 0 <= i < |ms| ==> !Rejects(ms[i])
    ensures var d := DecodeMembers(Step, s, ms);
      d.error.None? ==>
        && d.state.skipped == LastAssigned(ms, "skipped", Conv, s.skipped)
        && d.state.successful == LastAssigned(ms, "successful", Conv, s.successful)
        && d.state.total == LastAssigned(ms, "total", Conv, s.total)
  {
    ErrorIffRejected(Step, Rejects, s, ms);
    SkippedIsLast(s, ms);
    SuccessfulIsLast(s, ms);
    TotalIsLast(s, ms);
  }

}
