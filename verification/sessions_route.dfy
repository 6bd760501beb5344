/** `POST /api/flex/checkout/sessions`: validate the line items, then ask the
    gateway for a hosted checkout session that returns the browser to this
    application's own origin. */
module SessionsRoute {
  import opened Values
  import opened Http
  import opened Gateway

  /** The request headers the route reads. */
  datatype Headers = Headers(forwardedProto: Option<string>, host: Option<string>)

  const LineItemsRequired := "line_items array is required"
  const SessionFailedMessage := "Failed to create checkout session"
  const SessionCreatedMessage := "Checkout session created successfully"

  /** `x-forwarded-proto || 'http'`: an absent or empty header means `http`. */
  function Protocol(h: Headers): (p: string)
    ensures NonEmpty(h.forwardedProto) ==> p == h.forwardedProto.value
    ensures !NonEmpty(h.forwardedProto) ==> p == "http"
  {
    if NonEmpty(h.forwardedProto) then h.forwardedProto.value else "http"
  }

  /** `${protocol}://${host}`; a missing `host` header reads as `null` and is
      interpolated as the text "null". */
  function BaseUrl(h: Headers): (u: string)
    ensures u == Protocol(h) + "://" + (if h.host.Some? then h.host.value else "null")
  {
    Protocol(h) + "://" + (match h.host case Some(host) => host case None => "null")
  }

  /** Where the gateway sends the browser after payment; the gateway
      substitutes the session id for the placeholder. */
  function SuccessUrl(base: string): string {
    base + "/checkout/success?session_id={CHECKOUT_SESSION_ID}"
  }

  /** Where the gateway sends the browser after a cancelled payment. */
  function CancelUrl(base: string): string {
    base + "/checkout/cancel"
  }

  /** `line_items` is present, an array, and not empty. */
  predicate ValidLineItems(l: Lookup) {
    l.Found? && l.v.JArr? && |l.v.items| > 0
  }

  /** The route's answer and the session it asked the gateway for, if any. */
  datatype SessionRun = SessionRun(response: Response, upstream: Option<SessionPayload>)

  /** The route, given the parsed request body (None when it is not JSON),
      the configuration, the headers and the gateway's reply. Input is
      checked before the configuration, and the gateway is called only when
      both pass. */
  function PostCheckoutSession(body: Option<Json>, config: Config, headers: Headers, reply: Reply): (r: SessionRun)
    ensures body.None? || body == Some(JNull) ==>
      r == SessionRun(ErrorResponse(500, InternalError), None)
    ensures body.Some? && !body.value.JNull? && !ValidLineItems(Member(body.value, "line_items")) ==>
      r == SessionRun(ErrorResponse(400, LineItemsRequired), None)
    ensures r.upstream.Some? <==>
      body.Some? && ValidLineItems(Member(body.value, "line_items")) && Configured(config)
    ensures body.Some? && ValidLineItems(Member(body.value, "line_items")) && !Configured(config) ==>
      r == SessionRun(ErrorResponse(500, CredentialsMissing), None)
    ensures r.upstream.Some? ==> r.upstream.value == SessionPayload(
      body.value.fields["line_items"], SuccessUrl(BaseUrl(headers)), CancelUrl(BaseUrl(headers)), "payment")
    ensures r.upstream.Some? ==>
      r.response == Relay(reply, SessionFailedMessage, "checkout_session", SessionCreatedMessage)
  {
    match body
    case None => SessionRun(ErrorResponse(500, InternalError), None)
    case Some(b) =>
      var lineItems := Member(b, "line_items");
      if lineItems.TypeError? then SessionRun(ErrorResponse(500, InternalError), None)
      else if !ValidLineItems(lineItems) then SessionRun(ErrorResponse(400, LineItemsRequired), None)
      else if !Configured(config) then SessionRun(ErrorResponse(500, CredentialsMissing), None)
      else
        var base := BaseUrl(headers);
        var payload := SessionPayload(lineItems.v, SuccessUrl(base), CancelUrl(base), "payment");
        SessionRun(Relay(reply, SessionFailedMessage, "checkout_session", SessionCreatedMessage), Some(payload))
  }

  /** A non-ok gateway status reaches the browser unchanged, with details. */
  lemma UpstreamStatusPassedThrough(body: Option<Json>, config: Config, headers: Headers, status: int, text: string, json: Option<Json>)
    requires body.Some? && ValidLineItems(Member(body.value, "line_items")) && Configured(config)
    requires !IsOk(status)
    ensures var r := PostCheckoutSession(body, config, headers, Answered(status, text, json));
      r.response.status == status
      && r.response.body == JObj(map["error" := JStr(SessionFailedMessage), "details" := JStr(text)])
  {
  }

  /** The two callback locations share the request's own origin. */
  lemma CallbacksShareOrigin(headers: Headers)
    ensures SuccessUrl(BaseUrl(headers))[..|BaseUrl(headers)|] == BaseUrl(headers)
    ensures CancelUrl(BaseUrl(headers))[..|BaseUrl(headers)|] == BaseUrl(headers)
    ensures BaseUrl(Headers(None, Some("shop.example"))) == "http://shop.example"
  {
    var b := BaseUrl(headers);
    assert SuccessUrl(b)[..|b|] == (b + "/checkout/success?session_id={CHECKOUT_SESSION_ID}")[..|b|];
    assert CancelUrl(b)[..|b|] == (b + "/checkout/cancel")[..|b|];
    assert Protocol(Headers(None, Some("shop.example"))) == "http";
  }
}
