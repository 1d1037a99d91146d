/** The fragment of the Fetch API the handlers touch: header maps keyed by
    lower-cased field names (field names are case-insensitive, section 5.1 of
    RFC 9110), a mutable `Headers` object, the outbound request, the outcome
    of `fetch` and the response handed back to the hosting runtime. */
module Http {
  import opened Text

  datatype Option<T> = None | Some(value: T)

  datatype Result<T> = Ok(value: T) | Err(message: string)

  /** A header set as a `Headers` object holds it: one value per name, every
      name stored lower-cased. */
  type HeaderMap = m: map<string, string> | forall k :: k in m ==> IsLowerName(k)
    witness map[]

  /** `headers.get(name)`: the lookup ignores the case of `name`. */
  function GetHeader(m: HeaderMap, name: string): (v: Option<string>)
    ensures v.Some? <==> Lower(name) in m
    ensures v.Some? ==> v.value == m[Lower(name)]
  {
    var key := Lower(name);
    if key in m then Some(m[key]) else None
  }

  /** Looking a header up under two spellings of its name that differ only
      in letter case gives the same answer. */
  lemma GetHeaderIgnoresCase(m: HeaderMap, a: string, b: string)
    requires SameUpToCase(a, b)
    ensures GetHeader(m, a) == GetHeader(m, b)
  {
    LowerSameUpToCase(a, b);
  }

  /** A `Headers` object whose entries are changed in place by `set`. */
  class Headers {
    var fields: HeaderMap

    /** `new Headers(init)`: a copy of an existing header set. */
    constructor (init: HeaderMap)
      ensures fields == init
    {
      fields := init;
    }

    function Get(name: string): (v: Option<string>)
      reads this
      ensures v == GetHeader(fields, name)
    {
      GetHeader(fields, name)
    }

    /** `headers.set(name, value)`: replaces every value stored under the
        name, in whatever case it was given, and touches no other entry. */
    method Set(name: string, value: string)
      modifies this
      ensures fields == old(fields)[Lower(name) := value]
      ensures Get(name) == Some(value)
      ensures forall k :: k != Lower(name) ==> (k in fields <==> k in old(fields))
      ensures forall k :: k != Lower(name) && k in fields ==> fields[k] == old(fields)[k]
    {
      fields := fields[Lower(name) := value];
    }
  }

  /** Redirect modes of a `Request`; `Follow` is the default. */
  datatype RedirectMode = Follow | Manual | Error

  /** The request the handler builds and hands to `fetch`. */
  datatype OutboundRequest = OutboundRequest(url: string, headers: HeaderMap, redirect: RedirectMode)

  /** The statuses a response from `fetch` can have. The Fetch standard
      allows any status in 0..999; network errors reject instead, and
      informational 1xx responses are never handed out. Servers do send
      statuses 600..999, which no `Response` constructor accepts. */
  type FetchStatus = s: nat | 200 <= s <= 999 witness 200

  /** What `await fetch(request)` produces: either it throws with a message
      (an unparsable URL, DNS, TLS or connection failure), or it yields a
      response. `readable` tells whether `response.text()` would resolve to
      `body` or reject. */
  datatype UpstreamOutcome =
    | TransportFailure(message: string)
    | Upstream(status: FetchStatus, headers: HeaderMap, body: seq<char>, readable: bool)

  /** The `Response` the handler returns. */
  datatype ProxyResponse = ProxyResponse(status: nat, headers: HeaderMap, body: seq<char>)

  /** The response and the request sent upstream, if one was built. */
  datatype Exchange = Exchange(response: ProxyResponse, sent: Option<OutboundRequest>)

  /** `response.ok`: the status lies in 200..299. */
  predicate IsOk(status: nat) {
    200 <= status <= 299
  }

  /** Header names as a `Headers` object stores them. */
  const ContentTypeName: string := "content-type"
  const AllowOriginName: string := "access-control-allow-origin"
  const AllowMethodsName: string := "access-control-allow-methods"
  const AllowedMethods: string := "GET, HEAD, OPTIONS"

  /** The `content-type` a `Response` built from a string body receives. */
  const PlainText: string := "text/plain;charset=UTF-8"

  /** The spellings the handlers use name the keys above. */
  lemma AllowOriginSpelling()
    ensures Lower("Access-Control-Allow-Origin") == AllowOriginName
  {
  }

  lemma AllowMethodsSpelling()
    ensures Lower("Access-Control-Allow-Methods") == AllowMethodsName
  {
  }

  /** `new Response(text, { status })`: a fresh response whose only header is
      the plain-text content type, so it carries no CORS header. */
  function TextResponse(text: string, status: nat): (r: ProxyResponse)
    ensures r.status == status && r.body == text
    ensures GetHeader(r.headers, ContentTypeName) == Some(PlainText)
    ensures AllowOriginName !in r.headers && AllowMethodsName !in r.headers
  {
    ProxyResponse(status, map[ContentTypeName := PlainText], text)
  }

  /** Statuses whose responses may not carry a body (section 2.2 of the
      Fetch standard). */
  predicate NullBodyStatus(status: nat) {
    status == 101 || status == 103 || status == 204 || status == 205 || status == 304
  }

  /** The text of the exception the `Response` constructor throws for a
      status it refuses. Its wording belongs to the runtime; this stand-in
      names the status. */
  function ConstructorError(status: nat): string {
    "Response constructor: status " + Decimal(status) + " is not allowed"
  }

  /** `new Response(text, { status })` as it behaves for any status: a
      RangeError outside 200..599, a TypeError for a null-body status, and
      otherwise the plain-text response. */
  function NewTextResponse(text: string, status: nat): (r: Result<ProxyResponse>)
    ensures r.Ok? <==> 200 <= status <= 599 && !NullBodyStatus(status)
    ensures r.Ok? ==> r.value == TextResponse(text, status)
    ensures r.Err? ==> r.message == ConstructorError(status)
  {
    if status < 200 || 599 < status || NullBodyStatus(status) then Err(ConstructorError(status))
    else Ok(TextResponse(text, status))
  }

  /** `new Response(response.body, response)`: a copy of a response `fetch`
      delivered, with its status, headers and body. It throws a RangeError
      for a status outside 200..599. A null-body status comes with a null
      body, so that check never fails here. */
  function CopyResponse(status: nat, h: HeaderMap, body: seq<char>): (r: Result<ProxyResponse>)
    ensures r.Ok? <==> 200 <= status <= 599
    ensures r.Ok? ==> r.value == ProxyResponse(status, h, body)
    ensures r.Err? ==> r.message == ConstructorError(status)
  {
    if status < 200 || 599 < status then Err(ConstructorError(status))
    else Ok(ProxyResponse(status, h, body))
  }

  /** The header set after the two CORS `set` calls on a copy of `h`. */
  function WithCors(h: HeaderMap): HeaderMap {
    h[AllowOriginName := "*"][AllowMethodsName := AllowedMethods]
  }

  /** The CORS rewrite overwrites exactly the two CORS headers, whatever the
      upstream sent under those names, and keeps every other header. */
  lemma WithCorsSpec(h: HeaderMap)
    ensures GetHeader(WithCors(h), "Access-Control-Allow-Origin") == Some("*")
    ensures GetHeader(WithCors(h), "Access-Control-Allow-Methods") == Some(AllowedMethods)
    ensures WithCors(h).Keys == h.Keys + {AllowOriginName, AllowMethodsName}
    ensures forall k :: k in h && k != AllowOriginName && k != AllowMethodsName ==> WithCors(h)[k] == h[k]
  {
    AllowOriginSpelling();
    AllowMethodsSpelling();
  }
}
