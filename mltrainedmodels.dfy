/**
 * typedapi/cat/mltrainedmodels/ml_trained_models.go: the builder for
 * GET /_cat/ml/trained_models/{model_id}, the id being optional. Its Do
 * hands back the raw response.
 */
module CatMlTrainedModels {
  import opened Wrappers
  import opened Strconv
  import opened Http

  const ModelIdMask: bv64 := 1
  const Endpoint := "MlTrainedModels"

  /** bytes.Bytes, the unit for byte values (b, kb, mb, gb, tb, pb), carried as its name. */
  datatype Bytes = Bytes(name: string)
  {
    function String(): string
    {
      name
    }
  }

  datatype State = State(
    paramSet: bv64,
    modelId: string,
    values: map<string, string>,
    headers: Header,
    url: Url)

  predicate Reachable(paramSet: bv64)
  {
    paramSet & !ModelIdMask == 0
  }

  /** The fixed part of the path, as HttpRequest writes it piece by piece. */
  const BasePath := "/" + "_cat" + "/" + "ml" + "/" + "trained_models"

  /** The path HttpRequest writes for the exact value of paramSet; "" for any other value. */
  function PathFor(paramSet: bv64, modelId: string): string
  {
    if paramSet == 0 then BasePath
    else if paramSet == ModelIdMask then BasePath + "/" + modelId
    else ""
  }

  /** The path is empty exactly for unreachable bit sets, and names the model exactly when its bit is set. */
  lemma PathShape(paramSet: bv64, modelId: string)
    ensures PathFor(paramSet, modelId) == "" <==> !Reachable(paramSet)
    ensures Reachable(paramSet) ==>
      (PathFor(paramSet, modelId) ==
         BasePath + (if paramSet & ModelIdMask != 0 then "/" + modelId else ""))
  {
    assert Reachable(paramSet) <==> paramSet == 0 || paramSet == 1;
    if paramSet == ModelIdMask {
      assert BasePath + "/" + modelId == BasePath + ("/" + modelId);
    } else if paramSet == 0 {
      assert BasePath + "" == BasePath;
    }
  }

  function BuildRequest(s: State): (r: Result<Request, CallError>)
    ensures r.Failure? <==> !Reachable(s.paramSet)
    ensures r.Failure? ==> r.error == BuildPath
    ensures r.Success? ==>
      && r.value.verb == MethodGet
      && r.value.url == Url("http", PathFor(s.paramSet, s.modelId), s.values)
      && r.value.header == WithAccept(s.headers)
  {
    PathShape(s.paramSet, s.modelId);
    var path := PathFor(s.paramSet, s.modelId);
    if path == "" then Failure(BuildPath)
    else Success(Request(MethodGet, Url("http", path, s.values), WithAccept(s.headers)))
  }

  /** Do: the transport's response unchanged, or the build or wrapped transport error. */
  function Do(s: State, tp: Request -> TransportResult): (r: Result<HttpResponse, CallError>)
    ensures BuildRequest(s).Failure? ==> r == Failure(BuildPath)
    ensures BuildRequest(s).Success? ==>
      match tp(BuildRequest(s).value)
      case Delivered(res) => r == Success(res)
      case Failed(reason) => r == Failure(QueryFailed(Endpoint, reason))
  {
    Http.Perform(Endpoint, BuildRequest(s), tp)
  }

  /** IsSuccess: 2xx gives (true, nil) and every other status (false, nil). */
  function IsSuccess(s: State, tp: Request -> TransportResult): (r: Check)
    ensures r.ok <==> Do(s, tp).Success? && Successful(Do(s, tp).value.statusCode)
    ensures r.err.None? <==> Do(s, tp).Success?
    ensures Do(s, tp).Failure? ==> r.err == Some(Do(s, tp).error)
  {
    match Do(s, tp)
    case Failure(e) => Check(false, Some(e))
    case Success(res) =>
      if 200 <= res.statusCode && res.statusCode < 300 then Check(true, None)
      else Check(false, None)
  }

  class MlTrainedModels {
    var paramSet: bv64
    var modelId: string
    var values: map<string, string>
    var headers: Header
    var url: Url

    function Value(): State
      reads this
    {
      State(paramSet, modelId, values, headers, url)
    }

    predicate Valid()
      reads this
    {
      Reachable(paramSet)
    }

    constructor ()
      ensures Value() == State(0, "", map[], map[], Url("", "", map[]))
      ensures Valid()
    {
      paramSet, modelId := 0, "";
      values, headers := map[], map[];
      url := Url("", "", map[]);
    }

    /** The switch on paramSet that writes the path into a strings.Builder and picks the method. */
    method WritePath() returns (path: string, verb: string)
      ensures path == PathFor(paramSet, modelId)
      ensures path != "" ==> verb == MethodGet
    {
      var ps, id := paramSet, modelId;
      path, verb := "", "";
      if ps == 0 {
        path := path + "/";
        path := path + "_cat";
        path := path + "/";
        path := path + "ml";
        path := path + "/";
        path := path + "trained_models";
        verb := MethodGet;
      } else if ps == ModelIdMask {
        path := path + "/";
        path := path + "_cat";
        path := path + "/";
        path := path + "ml";
        path := path + "/";
        path := path + "trained_models";
        path := path + "/";
        path := path + id;
        verb := MethodGet;
      }
      assert path == PathFor(ps, id);
    }

    method HttpRequest() returns (req: Result<Request, CallError>)
      modifies this
      ensures req == BuildRequest(old(Value()))
      ensures Value() == old(Value()).(url := Url("http", PathFor(paramSet, modelId), values))
      ensures Valid() ==> req.Success?
    {
      url := url.(scheme := "http");
      var path, verb := WritePath();
      url := url.(path := path, query := values);
      if url.path == "" {
        return Failure(BuildPath);
      }
      var header := headers;
      if Get(header, "Accept") == "" {
        header := Set(header, "Accept", CompatibleWith8);
      }
      return Success(Request(verb, url, header));
    }

    method Header(key: string, value: string)
      modifies this
      ensures Value() == old(Value()).(headers := Set(old(headers), key, value))
    {
      headers := Set(headers, key, value);
    }

    /** ModelId: sets the id bit (kept by later calls) and the last id given wins. */
    method ModelId(v: string)
      modifies this
      ensures Value() == old(Value()).(paramSet := old(paramSet) | ModelIdMask, modelId := v)
      ensures paramSet & ModelIdMask != 0
      ensures old(Valid()) ==> Valid()
    {
      paramSet := paramSet | ModelIdMask;
      modelId := v;
    }

    method AllowNoMatch(b: bool)
      modifies this
      ensures Value() == old(Value()).(values := old(values)["allow_no_match" := FormatBool(b)])
    {
      values := values["allow_no_match" := FormatBool(b)];
    }

    method Bytes(unit: Bytes)
      modifies this
      ensures Value() == old(Value()).(values := old(values)["bytes" := unit.String()])
    {
      values := values["bytes" := unit.String()];
    }

    method H(value: string)
      modifies this
      ensures Value() == old(Value()).(values := old(values)["h" := value])
    {
      values := values["h" := value];
    }

    method S(value: string)
      modifies this
      ensures Value() == old(Value()).(values := old(values)["s" := value])
    {
      values := values["s" := value];
    }

    method From(i: Int64)
      modifies this
      ensures Value() == old(Value()).(values := old(values)["from" := Itoa(i)])
    {
      values := values["from" := Itoa(i)];
    }

    method Size(i: Int64)
      modifies this
      ensures Value() == old(Value()).(values := old(values)["size" := Itoa(i)])
    {
      values := values["size" := Itoa(i)];
    }
  }

  /** From and Size store a decimal rendering that parses back to the integer given. */
  lemma CountRoundTrip(values: map<string, string>, key: string, i: Int64)
    ensures ParseInt(values[key := Itoa(i)][key], "Atoi") == Success(i)
  {
    ParseItoa(i, "Atoi");
  }
}
