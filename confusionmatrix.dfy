/**
 * typedapi/types/dataframeclassificationsummarymulticlassconfusionmatrix.go:
 * the confusion matrix list and a lenient int count.
 */
module TypesDataframeClassificationSummaryMulticlassConfusionMatrix {
  import opened Wrappers
  import opened Strconv
  import opened Json
  import opened Lenient

  /** The items of the matrix are kept as JSON values; ConfusionMatrixItem is not part of this model. */
  datatype Fields = Fields(confusionMatrix: seq<JsonValue>, otherActualClassCount: Int64)

  function ConvMatrix(v: JsonValue): Lenient<seq<JsonValue>>
  {
    DecodeList(v, "[]types.ConfusionMatrixItem")
  }

  function ConvCount(v: JsonValue): Lenient<Int64>
  {
    LenientInt(v, "Atoi")
  }

  function Step(s: Fields, m: Member): Result<Fields, DecodeError>
  {
    match m.key
    case "confusion_matrix" => var c :- Update(ConvMatrix(m.value), s.confusionMatrix); Success(s.(confusionMatrix := c))
    case "other_actual_class_count" =>
      var n :- Update(ConvCount(m.value), s.otherActualClassCount); Success(s.(otherActualClassCount := n))
    case _ => Success(s)
  }

  predicate Rejects(m: Member)
  {
    || (m.key == "confusion_matrix" && ConvMatrix(m.value).Reject?)
    || (m.key == "other_actual_class_count" && ConvCount(m.value).Reject?)
  }

  class DataframeClassificationSummaryMulticlassConfusionMatrix {
    var confusionMatrix: seq<JsonValue>
    var otherActualClassCount: Int64

    function Value(): Fields
      reads this
    {
      Fields(confusionMatrix, otherActualClassCount)
    }

    constructor ()
      ensures Value() == Fields([], 0)
    {
      confusionMatrix, otherActualClassCount := [], 0;
    }

    method UnmarshalJSON(members: seq<Member>) returns (err: Option<DecodeError>)
      modifies this
      ensures Decoded(Value(), err) == DecodeMembers(Step, old(Value()), members)
    {
      var i := 0;
      while i < |members|
        invariant 0 <= i <= |members|
        invariant DecodeMembers(Step, old(Value()), members) == DecodeMembers(Step, Value(), members[i..])
      {
        var m := members[i];
        assert members[i..][1..] == members[i + 1..];
        match m.key {
          case "confusion_matrix" =>
            match ConvMatrix(m.value) {
              case Reject(e) => return Some(e);
              case Assign(c) => confusionMatrix := c;
              case Keep =>
            }
          case "other_actual_class_count" =>
            match ConvCount(m.value) {
              case Reject(e) => return Some(e);
              case Assign(n) => otherActualClassCount := n;
              case Keep =>
            }
          case _ =>
        }
        i := i + 1;
      }
      return None;
    }
  }

  /** The confusion_matrix member last assigned sets confusionMatrix. */
  lemma ConfusionMatrixIsLast(s: Fields, ms: seq<Member>)
    ensures var d := DecodeMembers(Step, s, ms);
      d.error.None? ==> d.state.confusionMatrix == LastAssigned(ms, "confusion_matrix", ConvMatrix, s.confusionMatrix)
  {
    FieldIsLastAssignment(Step, (r: Fields) => r.confusionMatrix, "confusion_matrix", ConvMatrix, s, ms);
  }

  /** The other_actual_class_count member last assigned sets otherActualClassCount. */
  lemma OtherActualClassCountIsLast(s: Fields, ms: seq<Member>)
    ensures var d := DecodeMembers(Step, s, ms);
      d.error.None? ==> d.state.otherActualClassCount == LastAssigned(ms, "other_actual_class_count", ConvCount, s.otherActualClassCount)
  {
    FieldIsLastAssignment(Step, (r: Fields) => r.otherActualClassCount, "other_actual_class_count", ConvCount, s, ms);
  }

  /**
   * Decoding fails exactly when confusion_matrix is neither an array nor
   * null, or the count is a malformed int string; otherwise both fields are
   * at their last assignment.
   */
  lemma DecodeMeaning(s: Fields, ms: seq<Member>)
    ensures DecodeMembers(Step, s, ms).error.None? <==> forall i :: 0 <= i < |ms| ==> !Rejects(ms[i])
    ensures var d := DecodeMembers(Step, s, ms);
      d.error.None? ==>
        && d.state.confusionMatrix == LastAssigned(ms, "confusion_matrix", ConvMatrix, s.confusionMatrix)
        && d.state.otherActualClassCount == LastAssigned(ms, "other_actual_class_count", ConvCount, s.otherActualClassCount)
  {
    ErrorIffRejected(Step, Rejects, s, ms);
    ConfusionMatrixIsLast(s, ms);
    OtherActualClassCountIsLast(s, ms);
  }

}
