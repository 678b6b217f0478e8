/**
 * typedapi/ml/getdatafeeds/get_datafeeds.go: the builder for
 * GET /_ml/datafeeds/{datafeed_id}, the id being optional.
 */
module MlGetDatafeeds {
  import opened Wrappers
  import opened Strconv
  import opened Json
  import opened Http

  const DatafeedIdMask: bv64 := 1
  const Endpoint := "GetDatafeeds"

  datatype State = State(
    paramSet: bv64,
    datafeedId: string,
    values: map<string, string>,
    headers: Header,
    url: Url)

  predicate Reachable(paramSet: bv64)
  {
    paramSet & !DatafeedIdMask == 0
  }

  /** The fixed part of the path, as HttpRequest writes it piece by piece. */
  const BasePath := "/" + "_ml" + "/" + "datafeeds"

  /** The path HttpRequest writes for the exact value of paramSet; "" for any other value. */
  function PathFor(paramSet: bv64, datafeedId: string): string
  {
    if paramSet == DatafeedIdMask then BasePath + "/" + datafeedId
    else if paramSet == 0 then BasePath
    else ""
  }

  /** The path is empty exactly for unreachable bit sets, and names the datafeed exactly when its bit is set. */
  lemma PathShape(paramSet: bv64, datafeedId: string)
    ensures PathFor(paramSet, datafeedId) == "" <==> !Reachable(paramSet)
    ensures Reachable(paramSet) ==>
      (PathFor(paramSet, datafeedId) ==
         BasePath + (if paramSet & DatafeedIdMask != 0 then "/" + datafeedId else ""))
  {
    assert Reachable(paramSet) <==> paramSet == 0 || paramSet == 1;
    if paramSet == DatafeedIdMask {
      assert BasePath + "/" + datafeedId == BasePath + ("/" + datafeedId);
    } else if paramSet == 0 {
      assert BasePath + "" == BasePath;
    }
  }

  function BuildRequest(s: State): (r: Result<Request, CallError>)
    ensures r.Failure? <==> !Reachable(s.paramSet)
    ensures r.Failure? ==> r.error == BuildPath
    ensures r.Success? ==>
      && r.value.verb == MethodGet
      && r.value.url == Url("http", PathFor(s.paramSet, s.datafeedId), s.values)
      && r.value.header == WithAccept(s.headers)
  {
    PathShape(s.paramSet, s.datafeedId);
    var path := PathFor(s.paramSet, s.datafeedId);
    if path == "" then Failure(BuildPath)
    else Success(Request(MethodGet, Url("http", path, s.values), WithAccept(s.headers)))
  }

  function Perform(s: State, tp: Request -> TransportResult): Result<HttpResponse, CallError>
  {
    Http.Perform(Endpoint, BuildRequest(s), tp)
  }

  /**
   * Do: a status below 299 decodes the body as the response; any other
   * status returns the decoded error body as it is, its status included.
   */
  function Do(s: State, tp: Request -> TransportResult): (r: Result<JsonValue, CallError>)
    ensures Perform(s, tp).Failure? ==> r == Failure(Perform(s, tp).error)
    ensures r.Success? ==> Perform(s, tp).Success? && Perform(s, tp).value.statusCode < 299
    ensures r.Failure? && r.error.Server? ==>
      && Perform(s, tp).Success?
      && Perform(s, tp).value.statusCode >= 299
      && Perform(s, tp).value.body.asError == Success(r.error.e)
    ensures var p := Perform(s, tp);
      p.Success? && p.value.statusCode < 299 && p.value.body.asResponse.Success? ==>
        r == Success(p.value.body.asResponse.value)
    ensures var p := Perform(s, tp);
      p.Success? && p.value.statusCode < 299 && p.value.body.asResponse.Failure? ==>
        r == Failure(Decode(p.value.body.asResponse.error))
    ensures var p := Perform(s, tp);
      p.Success? && p.value.statusCode >= 299 && p.value.body.asError.Success? ==>
        r == Failure(Server(p.value.body.asError.value))
    ensures var p := Perform(s, tp);
      p.Success? && p.value.statusCode >= 299 && p.value.body.asError.Failure? ==>
        r == Failure(Decode(p.value.body.asError.error))
  {
    var res :- Perform(s, tp);
    if res.statusCode < 299 then
      match res.body.asResponse
      case Failure(e) => Failure(Decode(e))
      case Success(v) => Success(v)
    else
      match res.body.asError
      case Failure(e) => Failure(Decode(e))
      case Success(ee) => Failure(Server(ee))
  }

  /** IsSuccess: 2xx gives (true, nil) and every other status, 404 included, (false, nil). */
  function IsSuccess(s: State, tp: Request -> TransportResult): (r: Check)
    ensures r.ok <==> Perform(s, tp).Success? && Successful(Perform(s, tp).value.statusCode)
    ensures r.err.None? <==> Perform(s, tp).Success?
    ensures Perform(s, tp).Failure? ==> r.err == Some(Perform(s, tp).error)
  {
    match Perform(s, tp)
    case Failure(e) => Check(false, Some(e))
    case Success(res) =>
      if 200 <= res.statusCode && res.statusCode < 300 then Check(true, None)
      else Check(false, None)
  }

  class GetDatafeeds {
    var paramSet: bv64
    var datafeedId: string
    var values: map<string, string>
    var headers: Header
    var url: Url

    function Value(): State
      reads this
    {
      State(paramSet, datafeedId, values, headers, url)
    }

    predicate Valid()
      reads this
    {
      Reachable(paramSet)
    }

    constructor ()
      ensures Value() == State(0, "", map[], map[], Url("", "", map[]))
      ensures Valid()
    {
      paramSet, datafeedId := 0, "";
      values, headers := map[], map[];
      url := Url("", "", map[]);
    }

    /** The switch on paramSet that writes the path into a strings.Builder and picks the method. */
    method WritePath() returns (path: string, verb: string)
      ensures path == PathFor(paramSet, datafeedId)
      ensures path != "" ==> verb == MethodGet
    {
      var ps, id := paramSet, datafeedId;
      path, verb := "", "";
      if ps == DatafeedIdMask {
        path := path + "/";
        path := path + "_ml";
        path := path + "/";
        path := path + "datafeeds";
        path := path + "/";
        path := path + id;
        verb := MethodGet;
      } else if ps == 0 {
        path := path + "/";
        path := path + "_ml";
        path := path + "/";
        path := path + "datafeeds";
        verb := MethodGet;
      }
      assert path == PathFor(ps, id);
    }

    method HttpRequest() returns (req: Result<Request, CallError>)
      modifies this
      ensures req == BuildRequest(old(Value()))
      ensures Value() == old(Value()).(url := Url("http", PathFor(paramSet, datafeedId), values))
      ensures Valid() ==> req.Success?
    {
      url := url.(scheme := "http");
      var path, verb := WritePath();
      url := url.(path := path, query := values);
      if url.path == "" {
        return Failure(BuildPath);
      }
      var header := headers;
      if Get(header, "Accept") == "" {
        header := Set(header, "Accept", CompatibleWith8);
      }
      return Success(Request(verb, url, header));
    }

    method Header(key: string, value: string)
      modifies this
      ensures Value() == old(Value()).(headers := Set(old(headers), key, value))
    {
      headers := Set(headers, key, value);
    }

    /** DatafeedId: sets the id bit (kept by later calls) and the last id given wins. */
    method DatafeedId(v: string)
      modifies this
      ensures Value() == old(Value()).(paramSet := old(paramSet) | DatafeedIdMask, datafeedId := v)
      ensures paramSet & DatafeedIdMask != 0
      ensures old(Valid()) ==> Valid()
    {
      paramSet := paramSet | DatafeedIdMask;
      datafeedId := v;
    }

    method AllowNoMatch(b: bool)
      modifies this
      ensures Value() == old(Value()).(values := old(values)["allow_no_match" := FormatBool(b)])
    {
      values := values["allow_no_match" := FormatBool(b)];
    }

    method ExcludeGenerated(b: bool)
      modifies this
      ensures Value() == old(Value()).(values := old(values)["exclude_generated" := FormatBool(b)])
    {
      values := values["exclude_generated" := FormatBool(b)];
    }
  }

  /** A boolean query value reads back as the flag that was set. */
  lemma FlagRoundTrip(values: map<string, string>, key: string, b: bool)
    ensures ParseBool(values[key := FormatBool(b)][key]) == Success(b)
  {
    ParseFormatBool(b);
  }
}
