/** typedapi/types/ipfilter.go: two flags decoded leniently from booleans or boolean strings. */
module TypesIpFilter {
  import opened Wrappers
  import opened Json
  import opened Lenient

  datatype Fields = Fields(http: bool, transport: bool)

  function Step(s: Fields, m: Member): Result<Fields, DecodeError>
  {
    match m.key
    case "http" => var b :- Update(LenientBool(m.value), s.http); Success(s.(http := b))
    case "transport" => var b :- Update(LenientBool(m.value), s.transport); Success(s.(transport := b))
    case _ => Success(s)
  }

  predicate Rejects(m: Member)
  {
    m.key in {"http", "transport"} && LenientBool(m.value).Reject?
  }

  class IpFilter {
    var http: bool
    var transport: bool

    function Value(): Fields
      reads this
    {
      Fields(http, transport)
    }

    /** NewIpFilter: both flags false. */
    constructor ()
      ensures Value() == Fields(false, false)
    {
      http, transport := false, false;
    }

    method UnmarshalJSON(members: seq<Member>) returns (err: Option<DecodeError>)
      modifies this
      ensures Decoded(Value(), err) == DecodeMembers(Step, old(Value()), members)
    {
      var i := 0;
      while i < |members|
        invariant 0 <= i <= |members|
        invariant DecodeMembers(Step, old(Value()), members) == DecodeMembers(Step, Value(), members[i..])
      {
        var m := members[i];
        assert members[i..][1..] == members[i + 1..];
        match m.key {
          case "http" =>
            match LenientBool(m.value) {
              case Reject(e) => return Some(e);
              case Assign(b) => http := b;
              case Keep =>
            }
          case "transport" =>
            match LenientBool(m.value) {
              case Reject(e) => return Some(e);
              case Assign(b) => transport := b;
              case Keep =>
            }
          case _ =>
        }
        i := i + 1;
      }
      return None;
    }
  }

  /** The http member last assigned sets http. */
  lemma HttpIsLast(s: Fields, ms: seq<Member>)
    ensures var d := DecodeMembers(Step, s, ms);
      d.error.None? ==> d.state.http == LastAssigned(ms, "http", LenientBool, s.http)
  {
    FieldIsLastAssignment(Step, (r: Fields) => r.http, "http", LenientBool, s, ms);
  }

  /** The transport member last assigned sets transport. */
  lemma TransportIsLast(s: Fields, ms: seq<Member>)
    ensures var d := DecodeMembers(Step, s, ms);
      d.error.None? ==> d.state.transport == LastAssigned(ms, "transport", LenientBool, s.transport)
  {
    FieldIsLastAssignment(Step, (r: Fields) => r.transport, "transport", LenientBool, s, ms);
  }

  /**
   * Decoding fails exactly when a flag is a string ParseBool rejects;
   * otherwise the two flags are independent, each at its last assignment.
   */
  lemma DecodeMeaning(s: Fields, ms: seq<Member>)
    ensures DecodeMembers(Step, s, ms).error.None? <==> forall i :: 0 <= i < |ms| ==> !Rejects(ms[i])
    ensures var d := DecodeMembers(Step, s, ms);
      d.error.None? ==>
        && d.state.http == LastAssigned(ms, "http", LenientBool, s.http)
        && d.state.transport == LastAssigned(ms, "transport", LenientBool, s.transport)
  {
    ErrorIffRejected(Step, Rejects, s, ms);
    HttpIsLast(s, ms);
    TransportIsLast(s, ms);
  }

}
