/** How the two handlers relate: they share the guard and the relay, and
    differ only in the `User-Agent` they send and in the checks the strict
    one applies before relaying. */
module Variants {
  import opened Http
  import StrictProxy
  import LaxProxy

  /** Both handlers refuse exactly the same `url` values, with the same response. */
  lemma SameGuard(streamUrl: Option<string>, caller: HeaderMap,
                  fetch: OutboundRequest -> UpstreamOutcome)
    ensures StrictProxy.Handle(streamUrl, fetch).sent.None?
        <==> LaxProxy.Handle(streamUrl, caller, fetch).sent.None?
    ensures StrictProxy.Handle(streamUrl, fetch).sent.None?
        ==> StrictProxy.Handle(streamUrl, fetch).response == LaxProxy.Handle(streamUrl, caller, fetch).response
  {
  }

  /** The two outbound requests differ at most in their `User-Agent`, and
      not at all when the lax handler falls back and the caller sent the
      strict handler's own string. */
  lemma RequestsDifferOnlyInUserAgent(url: string, caller: HeaderMap)
    ensures StrictProxy.StreamRequest(url).headers
         == LaxProxy.StreamRequest(url, caller).headers[Text.Lower("User-Agent") := StrictProxy.UserAgent]
    ensures LaxProxy.SelectUserAgent(caller) == StrictProxy.UserAgent
        ==> StrictProxy.StreamRequest(url) == LaxProxy.StreamRequest(url, caller)
  {
  }

  /** Whenever the strict handler accepts a response, both handlers return
      the very same response: the strict content-type rewrite changes nothing. */
  lemma AcceptedAnswersAgree(status: FetchStatus, h: HeaderMap, body: seq<char>, readable: bool)
    requires StrictProxy.Classify(status, h).Accepted?
    ensures StrictProxy.Answer(Upstream(status, h, body, readable)) == LaxProxy.Answer(Upstream(status, h, body, readable))
  {
  }

  /** Where the handlers' answers to a response differ, the strict one has
      refused it: a non-2xx status (mirrored, or 500 when it cannot be) or a
      415. The refusal carries no CORS header. */
  lemma AnswersDifferOnlyOnRejection(status: FetchStatus, h: HeaderMap, body: seq<char>, readable: bool)
    requires StrictProxy.Answer(Upstream(status, h, body, readable)) != LaxProxy.Answer(Upstream(status, h, body, readable))
    ensures !IsOk(status) || (status == 200 && !StrictProxy.IsValidHlsType(StrictProxy.ContentTypeOf(h)))
    ensures AllowOriginName !in StrictProxy.Answer(Upstream(status, h, body, readable)).headers
    ensures AllowMethodsName !in StrictProxy.Answer(Upstream(status, h, body, readable)).headers
  {
  }
}
