/**
 * The parts of net/http and of the transport the endpoint builders use:
 * canonical header keys, headers as a map, the default Accept header, the
 * request an endpoint builds, the transport's answer, and the status classes
 * of section 15 of RFC 9110.
 */
module Http {
  import opened Wrappers
  import opened Strings
  import opened Json

  const MethodGet := "GET"

  /** The media type requested when the caller has set no Accept header. */
  const CompatibleWith8 := "application/vnd.elasticsearch+json;compatible-with=8"

  /** A token character of section 5.6.2 of RFC 9110. */
  predicate IsTokenChar(c: char)
  {
    || 'a' <= c <= 'z' || 'A' <= c <= 'Z' || '0' <= c <= '9'
    || c in "!#$%&'*+-.^_`|~"
  }

  predicate IsToken(s: string)
  {
    forall i :: 0 <= i < |s| ==> IsTokenChar(s[i])
  }

  function UpperChar(ch: char): char
  {
    if 'a' <= ch <= 'z' then (ch as int - 32) as char else ch
  }

  /** Whether position k of s starts a word: the first position, or one right after a '-'. */
  predicate WordStart(s: string, k: int, first: bool)
    requires 0 <= k < |s|
  {
    if k == 0 then first else s[k - 1] == '-'
  }

  function CaseAt(ch: char, upper: bool): char
  {
    if upper then UpperChar(ch) else LowerChar(ch)
  }

  /** Upper-case the first letter of each '-'-separated word and lower-case the rest. */
  function CanonicalFrom(s: string, first: bool): (r: string)
    ensures |r| == |s|
  {
    if s == [] then [] else [CaseAt(s[0], first)] + CanonicalFrom(s[1..], s[0] == '-')
  }

  /** Each character is cased by whether it starts a word. */
  lemma {:induction false} CanonicalFromAt(s: string, first: bool)
    ensures forall k :: 0 <= k < |s| ==> CanonicalFrom(s, first)[k] == CaseAt(s[k], WordStart(s, k, first))
  {
    if s != [] {
      CanonicalFromAt(s[1..], s[0] == '-');
      forall k | 1 <= k < |s|
        ensures CanonicalFrom(s, first)[k] == CaseAt(s[k], WordStart(s, k, first))
      {
        assert CanonicalFrom(s, first)[k] == CanonicalFrom(s[1..], s[0] == '-')[k - 1];
        assert WordStart(s[1..], k - 1, s[0] == '-') == WordStart(s, k, first);
      }
    }
  }

  /**
   * textproto.CanonicalMIMEHeaderKey, the key http.Header's Get and Set use:
   * a key holding a character that is not a token character is used as it is.
   */
  function CanonicalHeaderKey(key: string): (r: string)
    ensures |r| == |key|
  {
    if IsToken(key) then CanonicalFrom(key, true) else key
  }

  /** Canonicalising a canonical key changes nothing. */
  lemma CanonicalIdempotent(key: string)
    ensures CanonicalHeaderKey(CanonicalHeaderKey(key)) == CanonicalHeaderKey(key)
  {
    if IsToken(key) {
      var c := CanonicalHeaderKey(key);
      CanonicalFromAt(key, true);
      CanonicalFromAt(c, true);
      assert forall k :: 0 <= k < |key| ==> (c[k] == '-' <==> key[k] == '-') && IsTokenChar(c[k]);
      assert forall k :: 0 <= k < |key| ==> WordStart(c, k, true) == WordStart(key, k, true);
    }
  }

  lemma LowerKeepsCase(ch: char, upper: bool)
    requires IsTokenChar(ch)
    ensures IsTokenChar(LowerChar(ch)) && (LowerChar(ch) == '-' <==> ch == '-')
    ensures CaseAt(LowerChar(ch), upper) == CaseAt(ch, upper)
  {
  }

  /**
   * Token keys are case-insensitive: a key and its lower-case form address
   * the same entry. (A key with any other character is used verbatim, so
   * there case matters.)
   */
  lemma CanonicalIgnoresCase(key: string)
    requires IsToken(key)
    ensures CanonicalHeaderKey(ToLower(key)) == CanonicalHeaderKey(key)
  {
    var l := ToLower(key);
    forall k | 0 <= k < |key|
      ensures IsTokenChar(l[k]) && (l[k] == '-' <==> key[k] == '-')
      ensures CaseAt(l[k], WordStart(key, k, true)) == CaseAt(key[k], WordStart(key, k, true))
    {
      LowerKeepsCase(key[k], WordStart(key, k, true));
    }
    assert IsToken(l);
    CanonicalFromAt(key, true);
    CanonicalFromAt(l, true);
    assert forall k :: 0 <= k < |key| ==> WordStart(l, k, true) == WordStart(key, k, true);
    assert CanonicalFrom(l, true) == CanonicalFrom(key, true);
  }

  /** http.Header, with Set as its only writer: one value per canonical key. */
  type Header = map<string, string>

  /** Header.Get: the value stored under the canonical key, or "" when there is none. */
  function Get(h: Header, key: string): string
  {
    var k := CanonicalHeaderKey(key);
    if k in h then h[k] else ""
  }

  /** Header.Set: replace the values of the canonical key. */
  function Set(h: Header, key: string, value: string): (r: Header)
    ensures Get(r, key) == value
    ensures forall k :: k in h && k != CanonicalHeaderKey(key) ==> k in r && r[k] == h[k]
  {
    h[CanonicalHeaderKey(key) := value]
  }

  lemma AcceptIsCanonical()
    ensures CanonicalHeaderKey("Accept") == "Accept"
    ensures CanonicalHeaderKey("accept") == "Accept"
  {
    assert IsToken("Accept");
    assert IsToken("accept");
    CanonicalFromAt("Accept", true);
    CanonicalFromAt("accept", true);
    assert CanonicalFrom("Accept", true) == "Accept";
    assert CanonicalFrom("accept", true) == "Accept";
  }

  /**
   * The header of a built request: a clone of the builder's header with
   * Accept set to the compatible-with=8 media type when Get("Accept") is "".
   */
  function WithAccept(h: Header): (r: Header)
    ensures Get(r, "Accept") != ""
    ensures Get(h, "Accept") != "" ==> r == h
    ensures forall k :: k in h && k != "Accept" ==> k in r && r[k] == h[k]
    ensures Get(h, "Accept") == "" ==> Get(r, "Accept") == CompatibleWith8
  {
    AcceptIsCanonical();
    if Get(h, "Accept") == "" then Set(h, "Accept", CompatibleWith8) else h
  }

  /** A caller's own non-empty Accept header, under any spelling of its key, is left in place. */
  lemma CallerAcceptKept(h: Header, key: string, value: string)
    requires CanonicalHeaderKey(key) == "Accept" && value != ""
    ensures WithAccept(Set(h, key, value)) == Set(h, key, value)
    ensures Get(WithAccept(Set(h, key, value)), "Accept") == value
  {
    AcceptIsCanonical();
  }

  /** url.URL as the builders fill it: scheme, path and the query values (before encoding). */
  datatype Url = Url(scheme: string, path: string, query: map<string, string>)

  datatype Request = Request(verb: string, url: Url, header: Header)

  /** types.ElasticsearchError: the status the server reported and the rest of the error body. */
  datatype EsError = EsError(status: int, detail: JsonValue)

  /** A response body, by the outcome of decoding it as the endpoint's response or as an error. */
  datatype Body = Body(asResponse: Result<JsonValue, string>, asError: Result<EsError, string>)

  datatype HttpResponse = HttpResponse(statusCode: int, body: Body)

  /** What the transport's Perform gives back for a request. */
  datatype TransportResult = Delivered(response: HttpResponse) | Failed(reason: string)

  datatype CallError =
    | BuildPath                                   // ErrBuildPath
    | QueryFailed(endpoint: string, cause: string) // a transport error, wrapped
    | StatusCode(endpoint: string, code: int)      // IsSuccess on an unexpected status
    | Decode(reason: string)                       // a body that does not decode
    | Server(e: EsError)                           // the decoded error body

  /** The (bool, error) pair IsSuccess returns. */
  datatype Check = Check(ok: bool, err: Option<CallError>)

  /** Section 15.3 of RFC 9110: the 2xx class. */
  predicate Successful(code: int)
  {
    200 <= code < 300
  }

  /** Section 15.5.5 of RFC 9110. */
  const NotFound := 404

  /**
   * Perform: a request that could not be built gives its error back; a
   * transport error is wrapped with the endpoint's name; a response is
   * passed through unchanged.
   */
  function Perform(endpoint: string, req: Result<Request, CallError>, tp: Request -> TransportResult): (r: Result<HttpResponse, CallError>)
    ensures req.Failure? ==> r == Failure(req.error)
    ensures req.Success? ==> (r.Success? <==> tp(req.value).Delivered?)
    ensures req.Success? && r.Success? ==> r.value == tp(req.value).response
    ensures req.Success? && r.Failure? ==> r.error == QueryFailed(endpoint, tp(req.value).reason)
  {
    var q :- req;
    match tp(q)
    case Failed(reason) => Failure(QueryFailed(endpoint, reason))
    case Delivered(res) => Success(res)
  }
}
