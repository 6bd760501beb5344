/** The browser-side API client: each call's raw HTTP outcome turned into an
    `ApiResponse`. */
module ApiClient {
  import opened Values
  import opened Http

  /** `ApiResponse<T>`: `success`, and the optional `data`, `error` and
      `details` fields. */
  datatype ApiResponse<T> = ApiResponse(
    success: bool,
    data: Option<T>,
    error: Option<Json>,
    details: Option<Json>)

  /** The `data` of a checkout-session call: `{ redirect_url }`, whose value
      may be `undefined`. */
  datatype Redirect = Redirect(redirectUrl: Option<Json>)

  /** One `{ price, quantity }` entry of a checkout request. `price` is the
      value the browser found in the price mapping. */
  datatype LineItem = LineItem(price: Json, quantity: int)

  const NetworkErrorMessage := "Network error - could not connect to API"
  const ProductFallback := "Failed to create product"
  const PriceFallback := "Failed to create price"
  const SessionFallback := "Failed to create checkout session"

  /** The catch branch: anything thrown becomes the network-error response. */
  function NetworkError<T>(): (r: ApiResponse<T>)
    ensures !r.success && r.data.None? && r.details.None?
    ensures r.error == Some(JStr(NetworkErrorMessage))
  {
    ApiResponse(false, None, Some(JStr(NetworkErrorMessage)), None)
  }

  /** The `!response.ok` branch for a parsed body: `error` is `result.error`
      when truthy and the call's fallback otherwise, `details` is copied.
      Reading `result.error` of a `null` body throws, which the call turns
      into the network error. */
  function Rejection<T>(result: Json, fallback: string): (r: ApiResponse<T>)
    ensures !r.success && r.data.None?
    ensures result.JNull? ==> r == NetworkError()
    ensures !result.JNull? ==> r.details == Member(result, "details").AsOption()
    ensures !result.JNull? && Present(Member(result, "error").AsOption()) ==>
      r.error == Some(result.fields["error"])
    ensures !result.JNull? && !Present(Member(result, "error").AsOption()) ==>
      r.error == Some(JStr(fallback))
  {
    var details := Member(result, "details");
    match Member(result, "error")
    case TypeError => NetworkError()
    case Undefined => ApiResponse(false, None, Some(JStr(fallback)), details.AsOption())
    case Found(e) =>
      ApiResponse(false, None, Some(if Truthy(e) then e else JStr(fallback)), details.AsOption())
  }

  /** A reply whose body was parsed and is not `null`: the only kind of reply
      from which a call can read a field without throwing. */
  predicate Readable(reply: ClientReply) {
    reply.Received? && reply.json.Some? && !reply.json.value.JNull?
  }

  /** The shared shape of the three calls: a throw or an unreadable body
      gives the network error, a non-ok reply gives the rejection, and an ok
      reply gives `onOk` of the body (None when reading it throws). */
  function Settle<T>(reply: ClientReply, fallback: string, onOk: Option<T>, okThrows: bool): (r: ApiResponse<T>)
    ensures r.success ==> r.error.None?
    ensures r.success <==> Readable(reply) && reply.ok && !okThrows
    ensures r.success ==> r.data == onOk
    ensures Readable(reply) && !reply.ok ==> r == Rejection(reply.json.value, fallback)
    ensures !Readable(reply) || (reply.ok && okThrows) ==> r == NetworkError()
  {
    match reply
    case NetworkFailure => NetworkError()
    case Received(ok, json) =>
      if json.None? then NetworkError()
      else if !ok then Rejection(json.value, fallback)
      else if json.value.JNull? || okThrows then NetworkError()
      else ApiResponse(true, onOk, None, None)
  }

  /** `createProductInFlex`: `data` is `result.product`. */
  function CreateProductInFlex(reply: ClientReply): (r: ApiResponse<Json>)
    ensures r.success ==> r.error.None?
    ensures r.success <==> Readable(reply) && reply.ok
    ensures r.success ==> r.data == Member(reply.json.value, "product").AsOption()
    ensures Readable(reply) && !reply.ok ==> r == Rejection(reply.json.value, ProductFallback)
    ensures !Readable(reply) ==> r == NetworkError()
  {
    var l := if Readable(reply) then Member(reply.json.value, "product") else Undefined;
    Settle(reply, ProductFallback, if l.TypeError? then None else l.AsOption(), l.TypeError?)
  }

  /** `createPriceInFlex`: `data` is `result.price`. */
  function CreatePriceInFlex(reply: ClientReply): (r: ApiResponse<Json>)
    ensures r.success ==> r.error.None?
    ensures r.success <==> Readable(reply) && reply.ok
    ensures r.success ==> r.data == Member(reply.json.value, "price").AsOption()
    ensures Readable(reply) && !reply.ok ==> r == Rejection(reply.json.value, PriceFallback)
    ensures !Readable(reply) ==> r == NetworkError()
  {
    var l := if Readable(reply) then Member(reply.json.value, "price") else Undefined;
    Settle(reply, PriceFallback, if l.TypeError? then None else l.AsOption(), l.TypeError?)
  }

  /** The body `createPriceInFlex` sends: `{ product_id, unit_amount }`. */
  function PriceRequest(productId: string, unitAmount: real): Json {
    JObj(map["product_id" := JStr(productId), "unit_amount" := JNum(unitAmount)])
  }

  /** `result.checkout_session.checkout_session.redirect_url`. */
  function RedirectLookup(result: Json): Lookup {
    MemberOf(MemberOf(Member(result, "checkout_session"), "checkout_session"), "redirect_url")
  }

  /** `createCheckoutSession`: `data` is `{ redirect_url }` read through two
      nested `checkout_session` objects; when either is missing or `null`,
      reading it throws and the call reports the network error. */
  function CreateCheckoutSession(reply: ClientReply): (r: ApiResponse<Redirect>)
    ensures r.success ==> r.error.None?
    ensures r.success <==> Readable(reply) && reply.ok && !RedirectLookup(reply.json.value).TypeError?
    ensures r.success ==> r.data == Some(Redirect(RedirectLookup(reply.json.value).AsOption()))
    ensures Readable(reply) && !reply.ok ==> r == Rejection(reply.json.value, SessionFallback)
    ensures !r.success ==> r.data.None?
    ensures !Readable(reply) || (reply.ok && RedirectLookup(reply.json.value).TypeError?) ==> r == NetworkError()
  {
    var l := if Readable(reply) then RedirectLookup(reply.json.value) else Undefined;
    Settle(reply, SessionFallback, if l.TypeError? then None else Some(Redirect(l.AsOption())), l.TypeError?)
  }

  /** A line item as the JSON object `{ price, quantity }`. */
  function LineItemJson(item: LineItem): Json {
    JObj(map["price" := item.price, "quantity" := JNum(item.quantity as real)])
  }

  /** The body `createCheckoutSession` sends: `{ line_items }`, the items
      unchanged and in order. */
  function SessionRequest(items: seq<LineItem>): (j: Json)
    ensures j.JObj? && j.fields.Keys == {"line_items"}
    ensures j.fields["line_items"].JArr? && |j.fields["line_items"].items| == |items|
    ensures forall k :: 0 <= k < |items| ==> j.fields["line_items"].items[k] == LineItemJson(items[k])
  {
    JObj(map["line_items" := JArr(seq(|items|, k requires 0 <= k < |items| => LineItemJson(items[k])))])
  }

  /** An ok reply carrying a gateway session with a redirect target gives a
      successful result whose `redirect_url` is that target. */
  lemma SessionRedirectRead(session: map<string, Json>, url: Json)
    requires "redirect_url" in session && session["redirect_url"] == url
    ensures var body := JObj(map["checkout_session" := JObj(map["checkout_session" := JObj(session)])]);
      CreateCheckoutSession(Received(true, Some(body))) == ApiResponse(true, Some(Redirect(Some(url))), None, None)
  {
  }

  /** No call ever reports success together with an error. */
  lemma NeverSuccessWithError(reply: ClientReply)
    ensures !(CreateProductInFlex(reply).success && CreateProductInFlex(reply).error.Some?)
    ensures !(CreatePriceInFlex(reply).success && CreatePriceInFlex(reply).error.Some?)
    ensures !(CreateCheckoutSession(reply).success && CreateCheckoutSession(reply).error.Some?)
  {
  }
}
