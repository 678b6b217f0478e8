/** typedapi/types/executionthreadpool.go: thread-pool sizes decoded leniently as int64. */
module TypesExecutionThreadPool {
  import opened Wrappers
  import opened Strconv
  import opened Json
  import opened Lenient

  datatype Fields = Fields(maxSize: Int64, queueSize: Int64)

  function Conv(v: JsonValue): Lenient<Int64>
  {
    LenientInt(v, "ParseInt")
  }

  function Step(s: Fields, m: Member): Result<Fields, DecodeError>
  {
    match m.key
    case "max_size" => var n :- Update(Conv(m.value), s.maxSize); Success(s.(maxSize := n))
    case "queue_size" => var n :- Update(Conv(m.value), s.queueSize); Success(s.(queueSize := n))
    case _ => Success(s)
  }

  predicate Rejects(m: Member)
  {
    m.key in {"max_size", "queue_size"} && Conv(m.value).Reject?
  }

  class ExecutionThreadPool {
    var maxSize: Int64
    var queueSize: Int64

    function Value(): Fields
      reads this
    {
      Fields(maxSize, queueSize)
    }

    /** NewExecutionThreadPool: both sizes zero. */
    constructor ()
      ensures Value() == Fields(0, 0)
    {
      maxSize, queueSize := 0, 0;
    }

    method UnmarshalJSON(members: seq<Member>) returns (err: Option<DecodeError>)
      modifies this
      ensures Decoded(Value(), err) == DecodeMembers(Step, old(Value()), members)
    {
      var i := 0;
      while i < |members|
        invariant 0 <= i <= |members|
        invariant DecodeMembers(Step, old(Value()), members) == DecodeMembers(Step, Value(), members[i..])
      {
        var m := members[i];
        assert members[i..][1..] == members[i + 1..];
        match m.key {
          case "max_size" =>
            match Conv(m.value) {
              case Reject(e) => return Some(e);
              case Assign(n) => maxSize := n;
              case Keep =>
            }
          case "queue_size" =>
            match Conv(m.value) {
              case Reject(e) => return Some(e);
              case Assign(n) => queueSize := n;
              case Keep =>
            }
          case _ =>
        }
        i := i + 1;
      }
      return None;
    }
  }

  /** The max_size member last assigned sets maxSize. */
  lemma MaxSizeIsLast(s: Fields, ms: seq<Member>)
    ensures var d := DecodeMembers(Step, s, ms);
      d.error.None? ==> d.state.maxSize == LastAssigned(ms, "max_size", Conv, s.maxSize)
  {
    FieldIsLastAssignment(Step, (r: Fields) => r.maxSize, "max_size", Conv, s, ms);
  }

  /** The queue_size member last assigned sets queueSize. */
  lemma QueueSizeIsLast(s: Fields, ms: seq<Member>)
    ensures var d := DecodeMembers(Step, s, ms);
      d.error.None? ==> d.state.queueSize == LastAssigned(ms, "queue_size", Conv, s.queueSize)
  {
    FieldIsLastAssignment(Step, (r: Fields) => r.queueSize, "queue_size", Conv, s, ms);
  }

  /**
   * Decoding fails exactly when a size is a string that ParseInt rejects;
   * otherwise max_size and queue_size each end at their own last assignment.
   */
  lemma DecodeMeaning(s: Fields, ms: seq<Member>)
    ensures DecodeMembers(Step, s, ms).error.None? <==> forall i :: 0 <= i < |ms| ==> !Rejects(ms[i])
    ensures var d := DecodeMembers(Step, s, ms);
      d.error.None? ==>
        && d.state.maxSize == LastAssigned(ms, "max_size", Conv, s.maxSize)
        && d.state.queueSize == LastAssigned(ms, "queue_size", Conv, s.queueSize)
  {
    ErrorIffRejected(Step, Rejects, s, ms);
    MaxSizeIsLast(s, ms);
    QueueSizeIsLast(s, ms);
  }

}
