/**
 * typedapi/indices/getsettings/get_settings.go: the builder for
 * GET /{index}/_settings/{name}. Path parameters are recorded in a bit set;
 * the path is chosen by the exact value of that set.
 */
module IndicesGetSettings {
  import opened Wrappers
  import opened Strconv
  import opened Strings
  import opened Json
  import opened Http

  const IndexMask: bv64 := 1
  const NameMask: bv64 := 2
  const Endpoint := "GetSettings"

  /** expandwildcard.ExpandWildcard, carried as its name. */
  datatype ExpandWildcard = ExpandWildcard(name: string)
  {
    function String(): string
    {
      name
    }
  }

  /** The builder's fields other than the transport. */
  datatype State = State(
    paramSet: bv64,
    index: string,
    name: string,
    values: map<string, string>,
    headers: Header,
    url: Url)

  /** The value sets the setters can produce: no bit besides the index and name bits. */
  predicate Reachable(paramSet: bv64)
  {
    paramSet & !(IndexMask | NameMask) == 0
  }

  /** The path HttpRequest writes for the exact value of paramSet; "" for any other value. */
  function PathFor(paramSet: bv64, index: string, name: string): string
  {
    if paramSet == 0 then "/" + "_settings"
    else if paramSet == IndexMask then "/" + index + "/" + "_settings"
    else if paramSet == IndexMask | NameMask then "/" + index + "/" + "_settings" + "/" + name
    else if paramSet == NameMask then "/" + "_settings" + "/" + name
    else ""
  }

  /**
   * The path is empty exactly for the unreachable bit sets, and otherwise
   * is "/", the index segment when its bit is set, "_settings", and the
   * name segment when its bit is set.
   */
  lemma PathShape(paramSet: bv64, index: string, name: string)
    ensures PathFor(paramSet, index, name) == "" <==> !Reachable(paramSet)
    ensures Reachable(paramSet) ==>
      (PathFor(paramSet, index, name) ==
         "/" + (if paramSet & IndexMask != 0 then index + "/" else "") + "_settings"
         + (if paramSet & NameMask != 0 then "/" + name else ""))
  {
    assert Reachable(paramSet) <==> paramSet == 0 || paramSet == 1 || paramSet == 2 || paramSet == 3;
    if paramSet == 0 {
      assert "/" + "_settings" == "/" + "" + "_settings" + "";
    } else if paramSet == IndexMask {
      assert "/" + index + "/" + "_settings" == "/" + (index + "/") + "_settings" + "";
    } else if paramSet == IndexMask | NameMask {
      assert "/" + index + "/" + "_settings" + "/" + name == "/" + (index + "/") + "_settings" + ("/" + name);
    } else if paramSet == NameMask {
      assert "/" + "_settings" + "/" + name == "/" + "" + "_settings" + ("/" + name);
    }
  }

  /**
   * The request HttpRequest builds from a state: ErrBuildPath for an empty
   * path, otherwise a GET on the chosen path with the query values and the
   * headers with Accept defaulted.
   */
  function BuildRequest(s: State): (r: Result<Request, CallError>)
    ensures r.Failure? <==> !Reachable(s.paramSet)
    ensures r.Failure? ==> r.error == BuildPath
    ensures r.Success? ==>
      && r.value.verb == MethodGet
      && r.value.url == Url("http", PathFor(s.paramSet, s.index, s.name), s.values)
      && r.value.header == WithAccept(s.headers)
  {
    PathShape(s.paramSet, s.index, s.name);
    var path := PathFor(s.paramSet, s.index, s.name);
    if path == "" then Failure(BuildPath)
    else Success(Request(MethodGet, Url("http", path, s.values), WithAccept(s.headers)))
  }

  /** Perform, on the copy of the builder its value receiver gets. */
  function Perform(s: State, tp: Request -> TransportResult): Result<HttpResponse, CallError>
  {
    Http.Perform(Endpoint, BuildRequest(s), tp)
  }

  /**
   * Do: a status below 299 decodes the body as the response; any other
   * status decodes it as an error, whose status defaults to the HTTP status
   * when the body reports 0.
   */
  function Do(s: State, tp: Request -> TransportResult): (r: Result<JsonValue, CallError>)
    ensures Perform(s, tp).Failure? ==> r == Failure(Perform(s, tp).error)
    ensures r.Success? ==> Perform(s, tp).Success? && Perform(s, tp).value.statusCode < 299
    ensures r.Failure? && r.error.Server? ==>
      && Perform(s, tp).Success?
      && Perform(s, tp).value.statusCode >= 299
      && (r.error.e.status == 0 ==> Perform(s, tp).value.statusCode == 0)
    ensures var p := Perform(s, tp);
      p.Success? && p.value.statusCode < 299 && p.value.body.asResponse.Success? ==>
        r == Success(p.value.body.asResponse.value)
    ensures var p := Perform(s, tp);
      p.Success? && p.value.statusCode < 299 && p.value.body.asResponse.Failure? ==>
        r == Failure(Decode(p.value.body.asResponse.error))
    ensures var p := Perform(s, tp);
      p.Success? && p.value.statusCode >= 299 && p.value.body.asError.Success? ==>
        r == Failure(Server(p.value.body.asError.value.(status := if p.value.body.asError.value.status == 0 then p.value.statusCode else p.value.body.asError.value.status)))
    ensures var p := Perform(s, tp);
      p.Success? && p.value.statusCode >= 299 && p.value.body.asError.Failure? ==>
        r == Failure(Decode(p.value.body.asError.error))
  {
    var res :- Perform(s, tp);
    if res.statusCode < 299 then
      match res.body.asResponse
      case Failure(e) => Failure(Decode(e))
      case Success(v) => Success(v)
    else
      match res.body.asError
      case Failure(e) => Failure(Decode(e))
      case Success(ee) => Failure(Server(if ee.status == 0 then ee.(status := res.statusCode) else ee))
  }

  /** IsSuccess: 2xx gives (true, nil), 404 gives (false, nil), any other status (false, error). */
  function IsSuccess(s: State, tp: Request -> TransportResult): (r: Check)
    ensures r.ok <==> Perform(s, tp).Success? && Successful(Perform(s, tp).value.statusCode)
    ensures r.err.None? <==>
      Perform(s, tp).Success? && (Successful(Perform(s, tp).value.statusCode) || Perform(s, tp).value.statusCode == NotFound)
    ensures Perform(s, tp).Failure? ==> r.err == Some(Perform(s, tp).error)
    ensures Perform(s, tp).Success? && r.err.Some? ==> r.err.value == StatusCode(Endpoint, Perform(s, tp).value.statusCode)
  {
    match Perform(s, tp)
    case Failure(e) => Check(false, Some(e))
    case Success(res) =>
      if 200 <= res.statusCode && res.statusCode < 300 then Check(true, None)
      else if res.statusCode != 404 then Check(false, Some(StatusCode(Endpoint, res.statusCode)))
      else Check(false, None)
  }

  /**
   * Status 299 is a success for IsSuccess but an error for Do, which
   * decodes the body as an error.
   */
  lemma DoAndIsSuccessDisagreeAt299(s: State, tp: Request -> TransportResult)
    requires Reachable(s.paramSet)
    requires tp(BuildRequest(s).value).Delivered?
    requires tp(BuildRequest(s).value).response.statusCode == 299
    ensures IsSuccess(s, tp) == Check(true, None)
    ensures Do(s, tp).Failure? && !Do(s, tp).Success?
    ensures tp(BuildRequest(s).value).response.body.asError.Success? ==>
      Do(s, tp).error.Server? && Do(s, tp).error.e.status != 0
  {
  }

  /** The joined names of the wildcards, in argument order. */
  function WildcardNames(ws: seq<ExpandWildcard>): (names: seq<string>)
    ensures |names| == |ws|
    ensures forall k :: 0 <= k < |ws| ==> names[k] == ws[k].String()
  {
    if ws == [] then [] else WildcardNames(ws[..|ws| - 1]) + [ws[|ws| - 1].String()]
  }

  /** Splitting the expand_wildcards value at ',' gives the names back, when none holds a ','. */
  lemma WildcardsRecoverable(ws: seq<ExpandWildcard>)
    requires ws != []
    requires forall k :: 0 <= k < |ws| ==> ',' !in ws[k].name
    ensures Split(Join(WildcardNames(ws), ","), ',') == WildcardNames(ws)
  {
    SplitJoin(WildcardNames(ws), ',');
  }

  class GetSettings {
    var paramSet: bv64
    var index: string
    var name: string
    var values: map<string, string>
    var headers: Header
    /** The Go field path, a url.URL. */
    var url: Url

    function Value(): State
      reads this
    {
      State(paramSet, index, name, values, headers, url)
    }

    predicate Valid()
      reads this
    {
      Reachable(paramSet)
    }

    /** New: empty values and headers, no path parameter set. */
    constructor ()
      ensures Value() == State(0, "", "", map[], map[], Url("", "", map[]))
      ensures Valid()
    {
      paramSet, index, name := 0, "", "";
      values, headers := map[], map[];
      url := Url("", "", map[]);
    }

    /** The switch on paramSet that writes the path into a strings.Builder and picks the method. */
    method WritePath() returns (path: string, verb: string)
      ensures path == PathFor(paramSet, index, name)
      ensures path != "" ==> verb == MethodGet
    {
      var ps, ix, nm := paramSet, index, name;
      path, verb := "", "";
      if ps == 0 {
        path := path + "/";
        path := path + "_settings";
        verb := MethodGet;
      } else if ps == IndexMask {
        path := path + "/";
        path := path + ix;
        path := path + "/";
        path := path + "_settings";
        verb := MethodGet;
      } else if ps == IndexMask | NameMask {
        path := path + "/";
        path := path + ix;
        path := path + "/";
        path := path + "_settings";
        path := path + "/";
        path := path + nm;
        verb := MethodGet;
      } else if ps == NameMask {
        path := path + "/";
        path := path + "_settings";
        path := path + "/";
        path := path + nm;
        verb := MethodGet;
      }
      assert path == PathFor(ps, ix, nm);
    }

    method HttpRequest() returns (req: Result<Request, CallError>)
      modifies this
      ensures req == BuildRequest(old(Value()))
      ensures Value() == old(Value()).(url := Url("http", PathFor(paramSet, index, name), values))
      ensures Valid() ==> req.Success?
    {
      url := url.(scheme := "http");
      var path, verb := WritePath();
      url := url.(path := path, query := values);
      if url.path == "" {
        return Failure(BuildPath);
      }
      var header := headers;
      if Get(header, "Accept") == "" {
        header := Set(header, "Accept", CompatibleWith8);
      }
      return Success(Request(verb, url, header));
    }

    method Header(key: string, value: string)
      modifies this
      ensures Value() == old(Value()).(headers := Set(old(headers), key, value))
    {
      headers := Set(headers, key, value);
    }

    /** Index: sets the index bit (kept by later calls) and the last index given wins. */
    method Index(index: string)
      modifies this
      ensures Value() == old(Value()).(paramSet := old(paramSet) | IndexMask, index := index)
      ensures paramSet & IndexMask != 0
      ensures old(Valid()) ==> Valid()
    {
      paramSet := paramSet | IndexMask;
      this.index := index;
    }

    /** Name: sets the name bit (kept by later calls) and the last name given wins. */
    method Name(name: string)
      modifies this
      ensures Value() == old(Value()).(paramSet := old(paramSet) | NameMask, name := name)
      ensures paramSet & NameMask != 0
      ensures old(Valid()) ==> Valid()
    {
      paramSet := paramSet | NameMask;
      this.name := name;
    }

    method AllowNoIndices(allowNoIndices: bool)
      modifies this
      ensures Value() == old(Value()).(values := old(values)["allow_no_indices" := FormatBool(allowNoIndices)])
    {
      values := values["allow_no_indices" := FormatBool(allowNoIndices)];
    }

    /** ExpandWildcards: the names joined by ",", in argument order. */
    method ExpandWildcards(expandWildcards: seq<ExpandWildcard>)
      modifies this
      ensures Value() == old(Value()).(values := old(values)["expand_wildcards" := Join(WildcardNames(expandWildcards), ",")])
    {
      var tmp: seq<string> := [];
      var i := 0;
      while i < |expandWildcards|
        invariant 0 <= i <= |expandWildcards|
        invariant tmp == WildcardNames(expandWildcards[..i])
      {
        assert expandWildcards[..i + 1][..i] == expandWildcards[..i];
        tmp := tmp + [expandWildcards[i].String()];
        i := i + 1;
      }
      assert expandWildcards[..i] == expandWildcards;
      values := values["expand_wildcards" := Join(tmp, ",")];
    }

    method FlatSettings(flatSettings: bool)
      modifies this
      ensures Value() == old(Value()).(values := old(values)["flat_settings" := FormatBool(flatSettings)])
    {
      values := values["flat_settings" := FormatBool(flatSettings)];
    }

    method IgnoreUnavailable(ignoreUnavailable: bool)
      modifies this
      ensures Value() == old(Value()).(values := old(values)["ignore_unavailable" := FormatBool(ignoreUnavailable)])
    {
      values := values["ignore_unavailable" := FormatBool(ignoreUnavailable)];
    }

    method IncludeDefaults(includeDefaults: bool)
      modifies this
      ensures Value() == old(Value()).(values := old(values)["include_defaults" := FormatBool(includeDefaults)])
    {
      values := values["include_defaults" := FormatBool(includeDefaults)];
    }

    method Local(local: bool)
      modifies this
      ensures Value() == old(Value()).(values := old(values)["local" := FormatBool(local)])
    {
      values := values["local" := FormatBool(local)];
    }

    method MasterTimeout(duration: string)
      modifies this
      ensures Value() == old(Value()).(values := old(values)["master_timeout" := duration])
    {
      values := values["master_timeout" := duration];
    }
  }
}
