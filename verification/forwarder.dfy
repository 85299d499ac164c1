/** The forwarder of the proxy (`forward_request`): builds the backend
    request from the inbound event and shapes the backend's answer into the
    Lambda response. The HTTP call itself is an abstract outcome. */
module Forwarder {
  import opened Wrappers
  import opened Strings
  import opened Envelope

  /** The inbound event; each field is `None` when the key is absent. */
  datatype Event = Event(
    httpMethod: Option<string>,
    path: Option<string>,
    headers: Option<seq<(string, string)>>,
    body: Option<string>)

  function EventMethod(e: Event): string { e.httpMethod.GetOr("GET") }
  function EventPath(e: Event): string { e.path.GetOr("/") }
  function EventHeaders(e: Event): seq<(string, string)> { e.headers.GetOr([]) }
  function EventBody(e: Event): string { e.body.GetOr("") }

  /** The request handed to `urlopen`: target, the method it is sent with
      (`Request.get_method()`), the `add_header` calls in order, and the body
      (`None` when the event body is empty). */
  datatype OutgoingRequest = OutgoingRequest(
    url: string,
    verb: string,
    headers: seq<(string, string)>,
    data: Option<string>)

  /** What `urlopen` does with the request: it raises (connection error,
      timeout, HTTP error status, malformed response), or it returns a status,
      `dict(response.headers)` and the body bytes. */
  datatype Upstream =
    | ForwardFailed(detail: string)
    | Reply(status: int, headers: map<string, string>, body: seq<byte>)

  /** The library codecs: UTF-8 decoding, which may raise, and base64. */
  datatype Codec = Codec(
    decodeUtf8: seq<byte> -> Result<string, string>,
    encodeBase64: seq<byte> -> string)

  datatype Forwarded = Forwarded(sent: OutgoingRequest, response: Response)

  /** Header keys never copied to the backend, compared lower-cased. */
  const StrippedKeys: set<string> := {"host", "content-length"}

  const DefaultContentType := "text/html"
  const AllowedMethods := "GET, POST, PUT, DELETE, OPTIONS"
  const AllowedHeaders := "Content-Type, Authorization"

  predicate IsStripped(key: string) {
    AsciiLower(key) in StrippedKeys
  }

  /** The headers copied to the backend: the inbound ones, in order, minus
      every key that lower-cases to `host` or `content-length`. */
  function ForwardHeaders(hs: seq<(string, string)>): (r: seq<(string, string)>)
    ensures forall p :: p in r <==> p in hs && !IsStripped(p.0)
    ensures (forall p :: p in hs ==> !IsStripped(p.0)) ==> r == hs
    ensures |r| <= |hs|
  {
    if |hs| == 0 then []
    else if IsStripped(hs[0].0) then ForwardHeaders(hs[1..])
    else [hs[0]] + ForwardHeaders(hs[1..])
  }

  /** Filtering keeps the relative order of the headers: it distributes over
      concatenation, so each kept header is sent in its inbound position. */
  lemma {:induction false} ForwardHeadersAppend(a: seq<(string, string)>, b: seq<(string, string)>)
    ensures ForwardHeaders(a + b) == ForwardHeaders(a) + ForwardHeaders(b)
    decreases |a|
  {
    if |a| == 0 {
      assert a + b == b;
    } else {
      assert (a + b)[0] == a[0];
      assert (a + b)[1..] == a[1..] + b;
      ForwardHeadersAppend(a[1..], b);
    }
  }

  /** `dict(response.headers).get('Content-Type', 'text/html')`: an exact-case key lookup. */
  function ContentTypeOf(headers: map<string, string>): string {
    if "Content-Type" in headers then headers["Content-Type"] else DefaultContentType
  }

  /** Content types whose body is relayed as text. */
  predicate IsTextual(contentType: string) {
    || StartsWith(contentType, "text/")
    || StartsWith(contentType, "application/json")
    || StartsWith(contentType, "application/xml")
  }

  /** The response always allows any origin and names the allowed methods and headers. */
  predicate HasCors(r: Response) {
    && HasHeader(r, "Access-Control-Allow-Origin", "*")
    && HasHeader(r, "Access-Control-Allow-Methods", AllowedMethods)
    && HasHeader(r, "Access-Control-Allow-Headers", AllowedHeaders)
  }

  /** The fixed header set of a relayed response. */
  function SuccessHeaders(contentType: string): map<string, string> {
    map[
      "Content-Type" := contentType,
      "Access-Control-Allow-Origin" := "*",
      "Access-Control-Allow-Methods" := AllowedMethods,
      "Access-Control-Allow-Headers" := AllowedHeaders
    ]
  }

  /** The 502 envelope of any failure while forwarding. */
  function BadGateway(detail: string): (r: Response)
    ensures r.statusCode == 502 && r.isBase64Encoded.None?
    ensures HasHeader(r, "Access-Control-Allow-Origin", "*")
    ensures HasHeader(r, "Content-Type", "application/json")
    ensures HasMember(r, "error", "Bad Gateway") && HasMember(r, "details", detail)
  {
    Response(
      502,
      Some(map["Content-Type" := "application/json", "Access-Control-Allow-Origin" := "*"]),
      JsonObject([("error", "Bad Gateway"), ("details", detail)]),
      None)
  }

  /** The method `urllib.request.Request` sends: an empty `method` argument
      is ignored, and the library then uses POST with a body and GET without. */
  function SentMethod(requested: string, data: Option<string>): string {
    if requested != "" then requested else if data.Some? then "POST" else "GET"
  }

  /** The outgoing request `forward_request` prepares for `endpoint`. */
  function BuildRequest(event: Event, endpoint: string): (req: OutgoingRequest)
    ensures req.url == endpoint + EventPath(event)
    ensures event.httpMethod.Some? && event.httpMethod.value != "" ==> req.verb == event.httpMethod.value
    ensures event.httpMethod.None? ==> req.verb == "GET"
    ensures event.httpMethod == Some("") ==> req.verb == (if EventBody(event) != "" then "POST" else "GET")
    ensures forall p :: p in req.headers <==> p in EventHeaders(event) && !IsStripped(p.0)
    ensures req.data.Some? <==> EventBody(event) != ""
    ensures req.data.Some? ==> req.data.value == EventBody(event)
  {
    var body := EventBody(event);
    var data := if body != "" then Some(body) else None;
    OutgoingRequest(
      endpoint + EventPath(event),
      SentMethod(EventMethod(event), data),
      ForwardHeaders(EventHeaders(event)),
      data)
  }

  /** The response shaped from the backend's answer. */
  function ShapeResponse(upstream: Upstream, codec: Codec): (r: Response)
    ensures upstream.ForwardFailed? ==> r == BadGateway(upstream.detail)
    ensures HasHeader(r, "Access-Control-Allow-Origin", "*")
  {
    match upstream
    case ForwardFailed(detail) => BadGateway(detail)
    case Reply(status, headers, bytes) =>
      var contentType := ContentTypeOf(headers);
      if !IsTextual(contentType) then
        Response(status, Some(SuccessHeaders(contentType)), Raw(codec.encodeBase64(bytes)), Some(true))
      else
        match codec.decodeUtf8(bytes)
        case Failure(err) => BadGateway(err)
        case Success(text) => Response(status, Some(SuccessHeaders(contentType)), Raw(text), Some(false))
  }

  /** A relayed response keeps the backend status, carries exactly the
      Content-Type and the three CORS headers, and flags base64 exactly for
      non-textual content, whose body is the encoding of the backend bytes; a
      textual body is the decoded text, and a decoding failure is a 502. */
  lemma ShapedResponse(upstream: Upstream, codec: Codec)
    ensures var r := ShapeResponse(upstream, codec);
      && (r.isBase64Encoded.Some? <==> upstream.Reply? && r.statusCode == upstream.status && HasCors(r))
      && (r.isBase64Encoded.None? ==> r.statusCode == 502 && HasMember(r, "error", "Bad Gateway"))
      && (upstream.Reply? && !IsTextual(ContentTypeOf(upstream.headers)) ==>
            r.isBase64Encoded == Some(true) && r.body == Raw(codec.encodeBase64(upstream.body)))
      && (upstream.Reply? && IsTextual(ContentTypeOf(upstream.headers)) ==>
            match codec.decodeUtf8(upstream.body)
            case Success(text) => r.isBase64Encoded == Some(false) && r.body == Raw(text)
            case Failure(err) => r == BadGateway(err))
      && (r.isBase64Encoded.Some? ==>
            HasHeader(r, "Content-Type", ContentTypeOf(upstream.headers))
            && r.headers.value.Keys == {"Content-Type", "Access-Control-Allow-Origin",
                                        "Access-Control-Allow-Methods", "Access-Control-Allow-Headers"})
  {
  }

  /** `forward_request(event, endpoint)`. */
  function ForwardRequest(event: Event, endpoint: string, upstream: Upstream, codec: Codec): (f: Forwarded)
    ensures f.sent.url == endpoint + EventPath(event)
    ensures forall p :: p in f.sent.headers <==> p in EventHeaders(event) && !IsStripped(p.0)
    ensures f.response.isBase64Encoded == Some(true) <==>
              upstream.Reply? && !IsTextual(ContentTypeOf(upstream.headers))
    ensures HasHeader(f.response, "Access-Control-Allow-Origin", "*")
  {
    ShapedResponse(upstream, codec);
    Forwarded(BuildRequest(event, endpoint), ShapeResponse(upstream, codec))
  }

  /** An absent Content-Type reads as `text/html`, so the body is text. */
  lemma AbsentContentTypeIsText(headers: map<string, string>)
    requires "Content-Type" !in headers
    ensures IsTextual(ContentTypeOf(headers))
  {
  }

  /** The lookup is case-sensitive: any map without the exact key
      `Content-Type` (a lower-case `content-type` key with any value, say)
      reads as `text/html`; the classification is case-sensitive too. */
  lemma LowerCaseKeyIsIgnored(headers: map<string, string>)
    ensures "Content-Type" !in headers ==> ContentTypeOf(headers) == DefaultContentType
    ensures forall v: string :: ContentTypeOf(map["content-type" := v]) == DefaultContentType
    ensures ContentTypeOf(map["content-type" := "image/png"]) == DefaultContentType
    ensures !IsTextual("image/png") && IsTextual("application/json; charset=utf-8")
    ensures !IsTextual("Text/html") && !IsTextual("application/javascript")
  {
    assert "application/json; charset=utf-8"[..16] == "application/json";
    assert "image/png"[..5][0] != "text/"[0];
    assert "image/png"[..9][0] != "application/json"[0];
    assert "Text/html"[..5][0] != "text/"[0];
    assert "application/javascript"[..5][0] != "text/"[0];
    assert "application/javascript"[..16][13] != "application/json"[13];
    assert "application/javascript"[..15][12] != "application/xml"[12];
  }

  /** Neither `Host` nor `Content-Length`, in any letter case, reaches the backend. */
  lemma HopHeadersNeverForwarded(event: Event, endpoint: string, value: string)
    ensures ("Host", value) !in BuildRequest(event, endpoint).headers
    ensures ("Content-Length", value) !in BuildRequest(event, endpoint).headers
    ensures ("HOST", value) !in BuildRequest(event, endpoint).headers
  {
    assert AsciiLower("Host") == "host";
    assert AsciiLower("Content-Length") == "content-length";
    assert AsciiLower("HOST") == "host";
  }
}
