/** The lax handler of proxy.js. It fetches the stream URL with a fixed
    fancode.com referrer, forwards the caller's `User-Agent` (or a fixed one),
    and relays whatever comes back with CORS headers added, errors included. */
module LaxProxy {
  import opened Text
  import opened Http

  const NoStreamUrl: string := "Error: No stream URL parameter provided"
  const Referer: string := "https://www.fancode.com/"
  const Origin: string := "https://www.fancode.com"
  const FallbackUserAgent: string := "Mozilla/5.0 (Windows NT 10.0; Win64; x64) AppleWebKit/537.36 (KHTML, like Gecko) Chrome/58.0.3029.110 Safari/537.36"
  const FetchErrorPrefix: string := "Error fetching stream: "

  /** `streamUrl` passes the guard `!streamUrl` only when present and non-empty. */
  predicate HasStreamUrl(streamUrl: Option<string>) {
    streamUrl.Some? && streamUrl.value != ""
  }

  /** `context.request.headers.get('User-Agent') || fallback`: the caller's
      value when it is present and non-empty. */
  function SelectUserAgent(caller: HeaderMap): (ua: string)
    ensures ua != ""
    ensures GetHeader(caller, "User-Agent").Some? && GetHeader(caller, "User-Agent").value != ""
      ==> ua == GetHeader(caller, "User-Agent").value
    ensures GetHeader(caller, "User-Agent").None? || GetHeader(caller, "User-Agent").value == ""
      ==> ua == FallbackUserAgent
  {
    match GetHeader(caller, "User-Agent")
    case Some(v) => if v != "" then v else FallbackUserAgent
    case None => FallbackUserAgent
  }

  /** The outbound request: fixed referrer and origin, the selected
      `User-Agent`, and the default redirect mode, which follows. */
  function StreamRequest(url: string, caller: HeaderMap): (req: OutboundRequest)
    ensures req.url == url && req.redirect == Follow
    ensures GetHeader(req.headers, "Referer") == Some(Referer)
    ensures GetHeader(req.headers, "Origin") == Some(Origin)
    ensures GetHeader(req.headers, "User-Agent") == Some(SelectUserAgent(caller))
    ensures req.headers.Keys == {Lower("Referer"), Lower("Origin"), Lower("User-Agent")}
  {
    OutboundRequest(url, map[Lower("Referer") := Referer, Lower("Origin") := Origin, Lower("User-Agent") := SelectUserAgent(caller)], Follow)
  }

  /** The response for every outcome of `fetch`: no status or type check,
      only the copy, which throws for a status outside 200..599. */
  function Answer(o: UpstreamOutcome): ProxyResponse {
    match o
    case TransportFailure(m) => TextResponse(FetchErrorPrefix + m, 500)
    case Upstream(status, h, body, _) =>
      match CopyResponse(status, h, body)
      case Ok(copy) => ProxyResponse(copy.status, WithCors(copy.headers), copy.body)
      case Err(e) => TextResponse(FetchErrorPrefix + e, 500)
  }

  /** The whole handler: the guard, then one request and its answer. */
  function Handle(streamUrl: Option<string>, caller: HeaderMap, fetch: OutboundRequest -> UpstreamOutcome): Exchange {
    if !HasStreamUrl(streamUrl) then Exchange(TextResponse(NoStreamUrl, 400), None)
    else
      var req := StreamRequest(streamUrl.value, caller);
      Exchange(Answer(fetch(req)), Some(req))
  }

  /** The relay step: `set` the two CORS headers on the copied response. */
  method Relay(copy: ProxyResponse) returns (r: ProxyResponse)
    ensures r.status == copy.status && r.body == copy.body
    ensures GetHeader(r.headers, "Access-Control-Allow-Origin") == Some("*")
    ensures GetHeader(r.headers, "Access-Control-Allow-Methods") == Some(AllowedMethods)
    ensures r.headers == WithCors(copy.headers)
  {
    var headers := new Headers(copy.headers);
    headers.Set("Access-Control-Allow-Origin", "*");
    headers.Set("Access-Control-Allow-Methods", AllowedMethods);
    AllowOriginSpelling();
    AllowMethodsSpelling();
    r := ProxyResponse(copy.status, headers.fields, copy.body);
  }

  /** `onRequest`, step by step with early returns. */
  method OnRequest(streamUrl: Option<string>, caller: HeaderMap, fetch: OutboundRequest -> UpstreamOutcome)
    returns (r: ProxyResponse, sent: Option<OutboundRequest>)
    ensures Exchange(r, sent) == Handle(streamUrl, caller, fetch)
  {
    if streamUrl.None? || streamUrl.value == "" {
      return TextResponse(NoStreamUrl, 400), None;
    }
    var req := StreamRequest(streamUrl.value, caller);
    sent := Some(req);
    var response := fetch(req);
    if response.TransportFailure? {
      r := TextResponse(FetchErrorPrefix + response.message, 500);
      return;
    }
    var copy := CopyResponse(response.status, response.headers, response.body);
    if copy.Err? {
      r := TextResponse(FetchErrorPrefix + copy.message, 500);
      return;
    }
    r := Relay(copy.value);
  }

  // ---------------------------------------------------------------------
  // Properties of the handler

  /** An absent or empty `url` gets a fresh plain-text 400, without CORS
      headers, and no request is built. */
  lemma MissingUrlRejected(streamUrl: Option<string>, caller: HeaderMap, fetch: OutboundRequest -> UpstreamOutcome)
    requires streamUrl.None? || streamUrl.value == ""
    ensures Handle(streamUrl, caller, fetch).sent.None?
    ensures Handle(streamUrl, caller, fetch).response == TextResponse(NoStreamUrl, 400)
    ensures Handle(streamUrl, caller, fetch).response.status == 400
    ensures Handle(streamUrl, caller, fetch).response.body == NoStreamUrl
    ensures GetHeader(Handle(streamUrl, caller, fetch).response.headers, ContentTypeName) == Some(PlainText)
    ensures AllowOriginName !in Handle(streamUrl, caller, fetch).response.headers
    ensures AllowMethodsName !in Handle(streamUrl, caller, fetch).response.headers
  {
  }

  /** The referrer and origin sent upstream are the same for every caller;
      only the `User-Agent` can differ. */
  lemma IdentityIndependentOfCaller(url: string, c1: HeaderMap, c2: HeaderMap)
    ensures StreamRequest(url, c1).headers[Lower("Referer")] == StreamRequest(url, c2).headers[Lower("Referer")] == Referer
    ensures StreamRequest(url, c1).headers[Lower("Origin")] == StreamRequest(url, c2).headers[Lower("Origin")] == Origin
    ensures StreamRequest(url, c1).headers == StreamRequest(url, c2).headers <==> SelectUserAgent(c1) == SelectUserAgent(c2)
  {
    var h1, h2 := StreamRequest(url, c1).headers, StreamRequest(url, c2).headers;
    if h1 == h2 {
      assert h1[Lower("User-Agent")] == h2[Lower("User-Agent")];
    }
  }

  /** Every upstream status the `Response` constructor accepts, 4xx and 5xx
      included, is relayed with its body and with both CORS headers; no
      other header changes. */
  lemma EveryStatusRelayed(status: FetchStatus, h: HeaderMap, body: seq<char>, readable: bool)
    ensures status <= 599 ==> var r := Answer(Upstream(status, h, body, readable));
      && r.status == status && r.body == body
      && GetHeader(r.headers, "Access-Control-Allow-Origin") == Some("*")
      && GetHeader(r.headers, "Access-Control-Allow-Methods") == Some(AllowedMethods)
      && (forall k :: k !in {AllowOriginName, AllowMethodsName} ==> (k in r.headers <==> k in h))
      && (forall k :: k in h && k !in {AllowOriginName, AllowMethodsName} ==> r.headers[k] == h[k])
  {
    WithCorsSpec(h);
  }

  /** An upstream status in 600..999 cannot be copied: the RangeError is
      caught and the answer is 500. */
  lemma OutOfRangeAnswered500(status: FetchStatus, h: HeaderMap, body: seq<char>, readable: bool)
    requires 600 <= status
    ensures Answer(Upstream(status, h, body, readable)) == TextResponse(FetchErrorPrefix + ConstructorError(status), 500)
  {
  }

  /** The media type is never checked: a 415 only ever comes from upstream. */
  lemma NoContentTypeCheck(o: UpstreamOutcome)
    requires Answer(o).status == 415
    ensures o.Upstream? && o.status == 415
  {
  }

  /** A failed fetch, or any exception, gets 500 with the message appended. */
  lemma TransportFailureReported(m: string)
    ensures Answer(TransportFailure(m)).status == 500
    ensures Answer(TransportFailure(m)).body == FetchErrorPrefix + m
    ensures AllowOriginName !in Answer(TransportFailure(m)).headers
    ensures AllowMethodsName !in Answer(TransportFailure(m)).headers
  {
  }
}
