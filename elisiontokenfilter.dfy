/** typedapi/types/elisiontokenfilter.go: the elision token filter, with its "elision" type preset. */
module TypesElisionTokenFilter {
  import opened Wrappers
  import opened Json
  import opened Lenient

  datatype Fields = Fields(
    articles: seq<string>,
    articlesCase: Option<bool>,
    articlesPath: Option<string>,
    filterType: string,
    version: Option<string>)

  function ConvArticlesCase(v: JsonValue): Lenient<Option<bool>>
  {
    Optional(LenientBool(v))
  }

  /** articles_path is decoded into a json.RawMessage: it keeps the value's raw text and never fails. */
  function ConvArticlesPath(v: JsonValue): Lenient<Option<string>>
  {
    Assign(Some(Render(v)))
  }

  function Step(s: Fields, m: Member): Result<Fields, DecodeError>
  {
    match m.key
    case "articles" => var a :- Update(DecodeStringList(m.value, s.articles), s.articles); Success(s.(articles := a))
    case "articles_case" => var c :- Update(ConvArticlesCase(m.value), s.articlesCase); Success(s.(articlesCase := c))
    case "articles_path" => var p :- Update(ConvArticlesPath(m.value), s.articlesPath); Success(s.(articlesPath := p))
    case "type" => var t :- Update(DecodeString(m.value), s.filterType); Success(s.(filterType := t))
    case "version" => var x :- Update(DecodeOptString(m.value), s.version); Success(s.(version := x))
    case _ => Success(s)
  }

  predicate Rejects(m: Member)
  {
    || (m.key == "articles" && DecodeStringList(m.value, []).Reject?)
    || (m.key == "articles_case" && LenientBool(m.value).Reject?)
    || (m.key == "type" && DecodeString(m.value).Reject?)
    || (m.key == "version" && DecodeOptString(m.value).Reject?)
  }

  class ElisionTokenFilter {
    var articles: seq<string>
    var articlesCase: Option<bool>
    var articlesPath: Option<string>
    var filterType: string
    var version: Option<string>

    function Value(): Fields
      reads this
    {
      Fields(articles, articlesCase, articlesPath, filterType, version)
    }

    /** NewElisionTokenFilter: Type is "elision", everything else unset. */
    constructor ()
      ensures Value() == Fields([], None, None, "elision", None)
    {
      articles, articlesCase, articlesPath, filterType, version := [], None, None, "elision", None;
    }

    method UnmarshalJSON(members: seq<Member>) returns (err: Option<DecodeError>)
      modifies this
      ensures Decoded(Value(), err) == DecodeMembers(Step, old(Value()), members)
    {
      var i := 0;
      while i < |members|
        invariant 0 <= i <= |members|
        invariant DecodeMembers(Step, old(Value()), members) == DecodeMembers(Step, Value(), members[i..])
      {
        var m := members[i];
        assert members[i..][1..] == members[i + 1..];
        match m.key {
          case "articles" =>
            match DecodeStringList(m.value, articles) {
              case Reject(e) => return Some(e);
              case Assign(a) => articles := a;
              case Keep =>
            }
          case "articles_case" =>
            match LenientBool(m.value) {
              case Reject(e) => return Some(e);
              case Assign(b) => articlesCase := Some(b);
              case Keep =>
            }
          case "articles_path" =>
            articlesPath := Some(Render(m.value));
          case "type" =>
            match DecodeString(m.value) {
              case Reject(e) => return Some(e);
              case Assign(t) => filterType := t;
              case Keep =>
            }
          case "version" =>
            match DecodeOptString(m.value) {
              case Reject(e) => return Some(e);
              case Assign(x) => version := x;
              case Keep =>
            }
          case _ =>
        }
        i := i + 1;
      }
      return None;
    }
  }

  /**
   * Decoding fails exactly when articles, articles_case, type or version
   * cannot be decoded; articles_path, kept as raw text, and unknown keys
   * never make it fail.
   */
  lemma DecodeFailsIff(s: Fields, ms: seq<Member>)
    ensures DecodeMembers(Step, s, ms).error.None? <==> forall i :: 0 <= i < |ms| ==> !Rejects(ms[i])
    ensures (forall i :: 0 <= i < |ms| ==> ms[i].key !in {"articles", "articles_case", "type", "version"}) ==>
      DecodeMembers(Step, s, ms).error.None?
  {
    ErrorIffRejected(Step, Rejects, s, ms);
  }

  /**
   * Each articles member is decoded into the slice already held, so articles
   * ends as the articles members merged in order.
   */
  lemma ArticlesIsLast(s: Fields, ms: seq<Member>)
    ensures var d := DecodeMembers(Step, s, ms);
      d.error.None? ==> d.state.articles == LastMerged(ms, "articles", DecodeStringList, s.articles)
  {
    FieldIsLastMerge(Step, (r: Fields) => r.articles, "articles", DecodeStringList, s, ms);
  }

  /** A null element of a repeated articles array keeps the string the earlier array put at its index. */
  lemma RepeatedArticlesNull(s: Fields)
    ensures var d := DecodeMembers(Step, s, [
        Member("articles", JArray([JString("a"), JString("b")])),
        Member("articles", JArray([JString("x"), JNull]))]);
      d.error.None? && d.state.articles == ["x", "b"]
  {
  }

  /** The articles_case member last assigned sets articlesCase. */
  lemma ArticlesCaseIsLast(s: Fields, ms: seq<Member>)
    ensures var d := DecodeMembers(Step, s, ms);
      d.error.None? ==> d.state.articlesCase == LastAssigned(ms, "articles_case", ConvArticlesCase, s.articlesCase)
  {
    FieldIsLastAssignment(Step, (r: Fields) => r.articlesCase, "articles_case", ConvArticlesCase, s, ms);
  }

  /** The articles_path member last assigned sets articlesPath. */
  lemma ArticlesPathIsLast(s: Fields, ms: seq<Member>)
    ensures var d := DecodeMembers(Step, s, ms);
      d.error.None? ==> d.state.articlesPath == LastAssigned(ms, "articles_path", ConvArticlesPath, s.articlesPath)
  {
    FieldIsLastAssignment(Step, (r: Fields) => r.articlesPath, "articles_path", ConvArticlesPath, s, ms);
  }

  /** The type member last assigned sets filterType. */
  lemma FilterTypeIsLast(s: Fields, ms: seq<Member>)
    ensures var d := DecodeMembers(Step, s, ms);
      d.error.None? ==> d.state.filterType == LastAssigned(ms, "type", DecodeString, s.filterType)
  {
    FieldIsLastAssignment(Step, (r: Fields) => r.filterType, "type", DecodeString, s, ms);
  }

  /** The version member last assigned sets version. */
  lemma VersionIsLast(s: Fields, ms: seq<Member>)
    ensures var d := DecodeMembers(Step, s, ms);
      d.error.None? ==> d.state.version == LastAssigned(ms, "version", DecodeOptString, s.version)
  {
    FieldIsLastAssignment(Step, (r: Fields) => r.version, "version", DecodeOptString, s, ms);
  }

  /**
   * After a successful decode each field is at its last assignment, so a
   * "type" string replaces the "elision" default.
   */
  lemma DecodeMeaning(s: Fields, ms: seq<Member>)
    ensures var d := DecodeMembers(Step, s, ms);
      d.error.None? ==>
        && d.state.articles == LastMerged(ms, "articles", DecodeStringList, s.articles)
        && d.state.articlesCase == LastAssigned(ms, "articles_case", ConvArticlesCase, s.articlesCase)
        && d.state.articlesPath == LastAssigned(ms, "articles_path", ConvArticlesPath, s.articlesPath)
        && d.state.filterType == LastAssigned(ms, "type", DecodeString, s.filterType)
        && d.state.version == LastAssigned(ms, "version", DecodeOptString, s.version)
  {
    ArticlesIsLast(s, ms);
    ArticlesCaseIsLast(s, ms);
    ArticlesPathIsLast(s, ms);
    FilterTypeIsLast(s, ms);
    VersionIsLast(s, ms);
  }


  /** articles_path keeps a JSON string's quotes, and any value is accepted as raw text. */
  lemma ArticlesPathIsRaw(s: Fields, p: string, v: JsonValue)
    ensures Step(s, Member("articles_path", JString(p))) == Success(s.(articlesPath := Some("\"" + p + "\"")))
    ensures Step(s, Member("articles_path", v)) == Success(s.(articlesPath := Some(Render(v))))
  {
  }
}
