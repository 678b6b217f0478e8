/**
 * typedapi/types/enums/templateformat/templateformat.go: an enum carried as
 * its name, whose text decoding recognises the known names loosely and
 * keeps anything else verbatim.
 */
module TemplateFormatEnum {
  import opened Wrappers
  import opened Strings

  datatype TemplateFormat = TemplateFormat(name: string)
  {
    function String(): string
    {
      name
    }
  }

  const String := TemplateFormat("string")
  const Json := TemplateFormat("json")

  /** MarshalText: the name's bytes and no error. */
  function MarshalText(t: TemplateFormat): Result<string, string>
  {
    Success(t.String())
  }

  /** The key the switch compares: lower-cased, with every double quote removed. */
  function Normalise(text: string): string
  {
    RemoveAll(ToLower(text), '"')
  }

  /** UnmarshalText: the value that replaces *t; the error is always nil. */
  function UnmarshalText(text: string): (r: Result<TemplateFormat, string>)
    ensures r.Success?
  {
    var key := Normalise(text);
    if key == "string" then Success(String)
    else if key == "json" then Success(Json)
    else Success(TemplateFormat(text))
  }

  /** Lower-case text without quotes normalises to itself. */
  lemma {:induction false} NormaliseFixed(text: string)
    requires forall k :: 0 <= k < |text| ==> text[k] != '"' && LowerChar(text[k]) == text[k]
    ensures Normalise(text) == text
  {
    var lower := ToLower(text);
    assert lower == text;
    RemoveAbsent(text, '"');
  }

  /** The two known names are their own keys. */
  lemma KnownNameFixed(name: string)
    requires name == "string" || name == "json"
    ensures Normalise(name) == name
  {
    NormaliseFixed(name);
  }

  lemma NormaliseNames()
    ensures Normalise("string") == "string"
    ensures Normalise("json") == "json"
  {
    KnownNameFixed("string");
    KnownNameFixed("json");
  }

  /** The text decodes to String exactly when it normalises to "string", and likewise for Json. */
  lemma Recognition(text: string)
    ensures UnmarshalText(text).value == String <==> Normalise(text) == "string"
    ensures UnmarshalText(text).value == Json <==> Normalise(text) == "json"
  {
    NormaliseNames();
  }

  /** Any other text is stored verbatim, keeping its case and its quotes. */
  lemma Verbatim(text: string)
    requires Normalise(text) != "string" && Normalise(text) != "json"
    ensures UnmarshalText(text).value.String() == text
  {
  }

  /** Round-trip of the constants through their text form. */
  lemma ConstantsRoundTrip(t: TemplateFormat)
    requires t == String || t == Json
    ensures UnmarshalText(MarshalText(t).value) == Success(t)
  {
    KnownNameFixed(t.name);
  }

  /**
   * Marshalling then unmarshalling gives the value back exactly when it is
   * one of the constants or its name does not normalise to a known name.
   */
  lemma RoundTrip(t: TemplateFormat)
    ensures MarshalText(t).Success?
    ensures UnmarshalText(MarshalText(t).value).value == t <==>
      t == String || t == Json || (Normalise(t.name) != "string" && Normalise(t.name) != "json")
  {
    NormaliseNames();
  }

  /** Decoding the text form of a decoded value changes nothing: the result depends on the text alone. */
  lemma Idempotent(text: string)
    ensures var t := UnmarshalText(text).value;
      UnmarshalText(MarshalText(t).value) == UnmarshalText(text)
  {
    NormaliseNames();
  }
}
