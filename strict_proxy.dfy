/** The strict handler of functions/proxy.js. It fetches the stream URL
    with a fixed fancode.com identity, mirrors upstream errors, refuses a
    200 response that is not HLS media (HLS is RFC 8216) with 415, and
    relays everything else with CORS headers added. */
module StrictProxy {
  import opened Text
  import opened Http

  const NoStreamUrl: string := "Error: No stream URL parameter provided"
  const Referer: string := "https://www.fancode.com/"
  const Origin: string := "https://www.fancode.com"
  const UserAgent: string := "Mozilla/5.0 (Windows NT 10.0; Win64; x64) AppleWebKit/537.36 (KHTML, like Gecko) Chrome/108.0.0.0 Safari/537.36"

  /** How much of an upstream error body the diagnostic quotes. */
  const SnippetLength: nat := 200

  /** The playlist types of section 4 of RFC 8216, the legacy playlist
      type, and the MPEG transport-stream segment type. */
  const HlsMediaTypes: seq<string> := ["application/vnd.apple.mpegurl", "audio/mpegurl", "application/x-mpegurl", "video/mp2t"]

  const UpstreamErrorPrefix: string := "Error: Upstream server responded with status "
  const SnippetSeparator: string := ". Body: "
  const UnreadablePrefix: string := "Upstream error status "
  const InvalidTypePrefix: string := "Error: Received invalid content type '"
  const InvalidTypeSuffix: string := "' from upstream"
  const FetchErrorPrefix: string := "Error fetching stream via proxy: "

  /** `streamUrl` passes the guard `!streamUrl` only when present and non-empty. */
  predicate HasStreamUrl(streamUrl: Option<string>) {
    streamUrl.Some? && streamUrl.value != ""
  }

  /** The disguised request: three fixed identity headers whatever the
      caller sent, and redirects followed. */
  function StreamRequest(url: string): (req: OutboundRequest)
    ensures req.url == url && req.redirect == Follow
    ensures GetHeader(req.headers, "Referer") == Some(Referer)
    ensures GetHeader(req.headers, "Origin") == Some(Origin)
    ensures GetHeader(req.headers, "User-Agent") == Some(UserAgent)
    ensures req.headers.Keys == {Lower("Referer"), Lower("Origin"), Lower("User-Agent")}
  {
    OutboundRequest(url, map[Lower("Referer") := Referer, Lower("Origin") := Origin, Lower("User-Agent") := UserAgent], Follow)
  }

  /** `response.headers.get('content-type') || ''`. */
  function ContentTypeOf(h: HeaderMap): (ct: string)
    ensures GetHeader(h, "content-type").None? ==> ct == ""
    ensures GetHeader(h, "content-type").Some? ==> ct == GetHeader(h, "content-type").value
  {
    match GetHeader(h, "content-type")
    case None => ""
    case Some(v) => v
  }

  /** The four `includes` tests of the strict check. */
  predicate IsValidHlsType(ct: string) {
    Contains(ct, "application/vnd.apple.mpegurl")
    || Contains(ct, "audio/mpegurl")
    || Contains(ct, "application/x-mpegurl")
    || Contains(ct, "video/mp2t")
  }

  /** A content type is valid exactly when one of the HLS media types occurs
      in it verbatim: case-sensitive and unanchored. */
  lemma IsValidHlsTypeIff(ct: string)
    ensures IsValidHlsType(ct) <==> exists t, i :: t in HlsMediaTypes && OccursAt(ct, t, i)
  {
    forall t | t in HlsMediaTypes
      ensures Contains(ct, t) <==> exists i :: OccursAt(ct, t, i)
    {
      ContainsIff(ct, t);
    }
    if IsValidHlsType(ct) {
      var t :| t in HlsMediaTypes && Contains(ct, t);
      var i :| OccursAt(ct, t, i);
    }
  }

  /** A missing header reads as the empty string, which is never valid. */
  lemma MissingContentTypeInvalid(h: HeaderMap)
    requires GetHeader(h, "content-type").None?
    ensures !IsValidHlsType(ContentTypeOf(h))
  {
  }

  /** What the two checks decide about a response `fetch` delivered. */
  datatype Verdict =
    | UpstreamError
    | ContentTypeMismatch(contentType: string)
    | Accepted(contentType: string)

  /** The status check, then the content-type check, which
      rejects only a status of exactly 200. */
  function Classify(status: FetchStatus, h: HeaderMap): (v: Verdict)
    ensures v.UpstreamError? <==> !IsOk(status)
    ensures v.ContentTypeMismatch? <==> status == 200 && !IsValidHlsType(ContentTypeOf(h))
    ensures !v.UpstreamError? ==> v.contentType == ContentTypeOf(h)
  {
    if !IsOk(status) then UpstreamError
    else
      var ct := ContentTypeOf(h);
      if !IsValidHlsType(ct) && status == 200 then ContentTypeMismatch(ct)
      else Accepted(ct)
  }

  /** The text the diagnostic quotes: the body, or a stand-in when
      `response.text()` rejects. */
  function ErrorBody(status: nat, body: seq<char>, readable: bool): string {
    if readable then body else UnreadablePrefix + Decimal(status)
  }

  /** The diagnostic for a status outside 200..299. */
  function UpstreamErrorText(status: nat, body: seq<char>, readable: bool): string {
    UpstreamErrorPrefix + Decimal(status) + SnippetSeparator + Truncate(ErrorBody(status, body, readable), SnippetLength)
  }

  /** The diagnostic for a 200 response of the wrong type; the body is not quoted. */
  function InvalidTypeText(ct: string): string {
    InvalidTypePrefix + ct + InvalidTypeSuffix
  }

  /** The response for every outcome of `fetch`, the catch-all included. */
  function Answer(o: UpstreamOutcome): ProxyResponse {
    match o
    case TransportFailure(m) => TextResponse(FetchErrorPrefix + m, 500)
    case Upstream(status, h, body, readable) =>
      match Classify(status, h)
      case UpstreamError =>
        (match NewTextResponse(UpstreamErrorText(status, body, readable), status)
         case Ok(mirrored) => mirrored
         case Err(e) => TextResponse(FetchErrorPrefix + e, 500))
      case ContentTypeMismatch(ct) => TextResponse(InvalidTypeText(ct), 415)
      case Accepted(_) => ProxyResponse(status, WithCors(h), body)
  }

  /** The whole handler: the guard, then one request and its answer. */
  function Handle(streamUrl: Option<string>, fetch: OutboundRequest -> UpstreamOutcome): Exchange {
    if !HasStreamUrl(streamUrl) then Exchange(TextResponse(NoStreamUrl, 400), None)
    else
      var req := StreamRequest(streamUrl.value);
      Exchange(Answer(fetch(req)), Some(req))
  }

  /** The relay step: copy the accepted response, then `set` the CORS headers
      and the content type on the copy. Setting the content type writes back
      the value that was read, so the header set is the upstream one with
      only the CORS headers overwritten. */
  method Relay(status: nat, upstream: HeaderMap, body: seq<char>, contentType: string) returns (r: ProxyResponse)
    requires contentType == ContentTypeOf(upstream)
    ensures r == ProxyResponse(status, WithCors(upstream), body)
  {
    var headers := new Headers(upstream);
    headers.Set("Access-Control-Allow-Origin", "*");
    headers.Set("Access-Control-Allow-Methods", AllowedMethods);
    AllowOriginSpelling();
    AllowMethodsSpelling();
    assert headers.fields == WithCors(upstream);
    if contentType != "" {
      assert ContentTypeName in upstream && upstream[ContentTypeName] == contentType;
      assert WithCors(upstream)[ContentTypeName] == contentType;
      headers.Set("content-type", contentType);
      assert headers.fields == WithCors(upstream);
    }
    r := ProxyResponse(status, headers.fields, body);
  }

  /** `onRequest`, step by step with early returns. */
  method OnRequest(streamUrl: Option<string>, fetch: OutboundRequest -> UpstreamOutcome)
    returns (r: ProxyResponse, sent: Option<OutboundRequest>)
    ensures Exchange(r, sent) == Handle(streamUrl, fetch)
  {
    if streamUrl.None? || streamUrl.value == "" {
      return TextResponse(NoStreamUrl, 400), None;
    }
    var req := StreamRequest(streamUrl.value);
    sent := Some(req);
    var response := fetch(req);
    if response.TransportFailure? {
      r := TextResponse(FetchErrorPrefix + response.message, 500);
      return;
    }
    if !IsOk(response.status) {
      var mirrored := NewTextResponse(UpstreamErrorText(response.status, response.body, response.readable), response.status);
      if mirrored.Err? {
        r := TextResponse(FetchErrorPrefix + mirrored.message, 500);
        return;
      }
      r := mirrored.value;
      return;
    }
    var contentType := ContentTypeOf(response.headers);
    if !IsValidHlsType(contentType) && response.status == 200 {
      r := TextResponse(InvalidTypeText(contentType), 415);
      return;
    }
    r := Relay(response.status, response.headers, response.body, contentType);
  }

  // ---------------------------------------------------------------------
  // Properties of the handler

  /** An absent or empty `url` gets a fresh plain-text 400, without CORS
      headers, and no request is built. */
  lemma MissingUrlRejected(streamUrl: Option<string>, fetch: OutboundRequest -> UpstreamOutcome)
    requires streamUrl.None? || streamUrl.value == ""
    ensures Handle(streamUrl, fetch).sent.None?
    ensures Handle(streamUrl, fetch).response == TextResponse(NoStreamUrl, 400)
    ensures Handle(streamUrl, fetch).response.status == 400
    ensures Handle(streamUrl, fetch).response.body == NoStreamUrl
    ensures GetHeader(Handle(streamUrl, fetch).response.headers, ContentTypeName) == Some(PlainText)
    ensures AllowOriginName !in Handle(streamUrl, fetch).response.headers
    ensures AllowMethodsName !in Handle(streamUrl, fetch).response.headers
  {
  }

  /** Otherwise exactly the disguised request for that URL is sent, and the
      answer depends only on what `fetch` made of it. */
  lemma PresentUrlFetched(url: string, fetch: OutboundRequest -> UpstreamOutcome)
    requires url != ""
    ensures Handle(Some(url), fetch).sent == Some(StreamRequest(url))
    ensures Handle(Some(url), fetch).response == Answer(fetch(StreamRequest(url)))
  {
  }

  /** The stand-in text for an unreadable body is short enough to be quoted whole. */
  lemma {:induction false} DecimalOfStatusIsShort(n: nat)
    requires n < 1000
    ensures |Decimal(n)| <= 3
    decreases n
  {
    if n >= 10 {
      DecimalOfStatusIsShort(n / 10);
    }
  }

  /** The non-2xx statuses a text response can be built with: all of
      300..599 except 304, which may not carry a body. */
  predicate MirroredStatus(status: FetchStatus) {
    300 <= status <= 599 && status != 304
  }

  /** A mirrorable status is mirrored, and the diagnostic quotes the first
      200 characters of the body, or the stand-in text when the body cannot
      be read. */
  lemma UpstreamErrorMirrored(status: FetchStatus, h: HeaderMap, body: seq<char>, readable: bool)
    requires !IsOk(status)
    ensures MirroredStatus(status) ==>
      var r := Answer(Upstream(status, h, body, readable));
      && r.status == status
      && (exists snippet ::
            && r.body == UpstreamErrorPrefix + Decimal(status) + SnippetSeparator + snippet
            && (readable ==> snippet <= body && |snippet| == if |body| < 200 then |body| else 200)
            && (!readable ==> snippet == UnreadablePrefix + Decimal(status)))
  {
    if MirroredStatus(status) {
      var snippet := Truncate(ErrorBody(status, body, readable), SnippetLength);
      if !readable {
        DecimalOfStatusIsShort(status);
      }
      assert Answer(Upstream(status, h, body, readable)).body
        == UpstreamErrorPrefix + Decimal(status) + SnippetSeparator + snippet;
    }
  }

  /** An upstream 304 passes `fetch` (redirect following leaves it alone),
      but a text response with that status cannot be built: the exception
      is caught and the answer is 500. */
  lemma NotModifiedAnswered500(h: HeaderMap, body: seq<char>, readable: bool)
    ensures !IsOk(304) && !MirroredStatus(304)
    ensures Answer(Upstream(304, h, body, readable)) == TextResponse(FetchErrorPrefix + ConstructorError(304), 500)
  {
  }

  /** An upstream status in 600..999 fails `response.ok`, but the `Response`
      constructor refuses it with a RangeError: the answer is 500. */
  lemma OutOfRangeAnswered500(status: FetchStatus, h: HeaderMap, body: seq<char>, readable: bool)
    requires 600 <= status
    ensures !IsOk(status) && !MirroredStatus(status)
    ensures Answer(Upstream(status, h, body, readable)) == TextResponse(FetchErrorPrefix + ConstructorError(status), 500)
  {
  }

  /** Reads the status back out of an upstream-error diagnostic. */
  function DiagnosticStatus(text: string): Option<nat> {
    if UpstreamErrorPrefix <= text then
      var digits := LeadingDigits(text[|UpstreamErrorPrefix|..]);
      if digits == [] then None else Some(ParseDecimal(digits))
    else None
  }

  /** The mirrored diagnostic names the upstream status unambiguously. */
  lemma UpstreamErrorNamesStatus(status: FetchStatus, h: HeaderMap, body: seq<char>, readable: bool)
    requires !IsOk(status)
    ensures MirroredStatus(status) ==> DiagnosticStatus(Answer(Upstream(status, h, body, readable)).body) == Some(status)
  {
    if !MirroredStatus(status) {
      return;
    }
    var text := Answer(Upstream(status, h, body, readable)).body;
    var rest := SnippetSeparator + Truncate(ErrorBody(status, body, readable), SnippetLength);
    assert text == UpstreamErrorPrefix + (Decimal(status) + rest);
    assert text[|UpstreamErrorPrefix|..] == Decimal(status) + rest;
    LeadingDigitsOfDigits(Decimal(status), rest);
    ParseDecimalOfDecimal(status);
  }

  /** A 200 response of a non-HLS type gets 415 and a diagnostic naming the type. */
  lemma ContentTypeMismatchRejected(h: HeaderMap, body: seq<char>, readable: bool)
    requires !IsValidHlsType(ContentTypeOf(h))
    ensures Answer(Upstream(200, h, body, readable)) == TextResponse(InvalidTypeText(ContentTypeOf(h)), 415)
    ensures Contains(InvalidTypeText(ContentTypeOf(h)), ContentTypeOf(h))
  {
    ContainsInfix(InvalidTypePrefix, ContentTypeOf(h), InvalidTypeSuffix);
  }

  /** Reads the offending content type back out of a 415 diagnostic. */
  function DiagnosticContentType(text: string): Option<string> {
    if |InvalidTypePrefix| + |InvalidTypeSuffix| <= |text|
       && InvalidTypePrefix <= text
       && text[|text| - |InvalidTypeSuffix|..] == InvalidTypeSuffix
    then Some(text[|InvalidTypePrefix|..|text| - |InvalidTypeSuffix|])
    else None
  }

  /** The 415 diagnostic determines the content type it reports. */
  lemma InvalidTypeTextNamesType(ct: string)
    ensures DiagnosticContentType(InvalidTypeText(ct)) == Some(ct)
  {
    var text := InvalidTypeText(ct);
    assert text[|text| - |InvalidTypeSuffix|..] == InvalidTypeSuffix;
    assert text[|InvalidTypePrefix|..|text| - |InvalidTypeSuffix|] == ct;
  }

  /** A 2xx status other than 200 is relayed whatever its type. */
  lemma OtherSuccessNotChecked(status: FetchStatus, h: HeaderMap, body: seq<char>, readable: bool)
    requires IsOk(status) && status != 200
    ensures Answer(Upstream(status, h, body, readable)) == ProxyResponse(status, WithCors(h), body)
  {
  }

  /** An accepted response keeps its status and body, gets both CORS
      headers whatever upstream sent under those names, keeps a non-empty
      content type, and keeps every other header. */
  lemma AcceptedRelayed(status: FetchStatus, h: HeaderMap, body: seq<char>, readable: bool)
    requires Classify(status, h).Accepted?
    ensures var r := Answer(Upstream(status, h, body, readable));
      && r.status == status && r.body == body
      && GetHeader(r.headers, "Access-Control-Allow-Origin") == Some("*")
      && GetHeader(r.headers, "Access-Control-Allow-Methods") == Some(AllowedMethods)
      && (ContentTypeOf(h) != "" ==> GetHeader(r.headers, "content-type") == Some(ContentTypeOf(h)))
      && (forall k :: k !in {AllowOriginName, AllowMethodsName} ==> (k in r.headers <==> k in h))
      && (forall k :: k in h && k !in {AllowOriginName, AllowMethodsName} ==> r.headers[k] == h[k])
  {
    WithCorsSpec(h);
  }

  /** Every rejection is a fresh plain-text response with no CORS header. */
  lemma RejectionsCarryNoCors(o: UpstreamOutcome)
    requires o.TransportFailure? || !Classify(o.status, o.headers).Accepted?
    ensures AllowOriginName !in Answer(o).headers && AllowMethodsName !in Answer(o).headers
    ensures GetHeader(Answer(o).headers, ContentTypeName) == Some(PlainText)
  {
  }

  /** A failed fetch, or any exception, gets 500 with the message appended. */
  lemma TransportFailureReported(m: string)
    ensures Answer(TransportFailure(m)).status == 500
    ensures Answer(TransportFailure(m)).body == FetchErrorPrefix + m
  {
  }

  /** A playlist served as `application/vnd.apple.mpegurl` is relayed
      byte for byte with its declared type. */
  lemma PlaylistRelayed(h: HeaderMap, body: seq<char>, readable: bool)
    requires GetHeader(h, "content-type") == Some("application/vnd.apple.mpegurl")
    ensures var r := Answer(Upstream(200, h, body, readable));
      r.status == 200 && r.body == body
      && GetHeader(r.headers, "content-type") == Some("application/vnd.apple.mpegurl")
  {
    ContainsInfix([], "application/vnd.apple.mpegurl", []);
    assert [] + "application/vnd.apple.mpegurl" + [] == "application/vnd.apple.mpegurl";
    AcceptedRelayed(200, h, body, readable);
  }

  /** A 403 is mirrored and its diagnostic mentions "403". */
  lemma ForbiddenMirrored(h: HeaderMap, body: seq<char>, readable: bool)
    ensures Answer(Upstream(403, h, body, readable)).status == 403
    ensures Contains(Answer(Upstream(403, h, body, readable)).body, "403")
  {
    assert Decimal(403) == "403";
    ContainsInfix(UpstreamErrorPrefix, "403", SnippetSeparator + Truncate(ErrorBody(403, body, readable), SnippetLength));
    assert UpstreamErrorPrefix + "403" + (SnippetSeparator + Truncate(ErrorBody(403, body, readable), SnippetLength))
      == UpstreamErrorText(403, body, readable);
  }

  /** A login page served with 200 and `text/html` is refused with 415 and
      a diagnostic naming `text/html`. */
  lemma LoginPageRejected(h: HeaderMap, body: seq<char>, readable: bool)
    requires GetHeader(h, "content-type") == Some("text/html")
    ensures Answer(Upstream(200, h, body, readable)).status == 415
    ensures Contains(Answer(Upstream(200, h, body, readable)).body, "text/html")
  {
    assert !IsValidHlsType("text/html");
    ContentTypeMismatchRejected(h, body, readable);
  }
}
