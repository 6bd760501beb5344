/** The upstream payment gateway ("Flex"): the configuration needed to reach
    it, the replies it gives and the requests the routes send to it. */
module Gateway {
  import opened Values
  import opened Http
  import opened Catalog

  /** `FLEX_API_KEY` and `FLEX_BASE_URL` as read from the environment. */
  datatype Config = Config(apiKey: Option<string>, baseUrl: Option<string>)

  /** `!flexApiKey || !flexBaseUrl` is false: both are set and non-empty. */
  predicate Configured(c: Config) {
    NonEmpty(c.apiKey) && NonEmpty(c.baseUrl)
  }

  /** The 500 message every gateway route returns when `Configured` fails. */
  const CredentialsMissing := "Flex API credentials not configured"

  /** What one `fetch` to the gateway yields: a thrown error with its message,
      or a status with the raw body text and that text parsed as JSON (None
      when `response.json()` would throw). */
  datatype Reply =
    | Unreachable(message: string)
    | Answered(status: int, text: string, json: Option<Json>)

  /** The product record sent upstream: the catalog product without its
      `price` and `image` fields. */
  datatype GatewayProduct = GatewayProduct(
    name: string,
    description: string,
    eligibility: string,
    metadata: map<string, string>)

  /** `const { price, image, ...flexProductData } = product`. */
  function StripLocalFields(p: Product): (g: GatewayProduct)
    ensures g.name == p.name && g.description == p.description
    ensures g.eligibility == p.eligibility && g.metadata == p.metadata
  {
    GatewayProduct(p.name, p.description, p.eligibility, p.metadata)
  }

  /** Stripping forgets exactly `price` and `image`: two products are sent
      upstream identically iff they differ in nothing else. */
  lemma StripForgetsOnlyPriceAndImage(p: Product, q: Product)
    ensures StripLocalFields(p) == StripLocalFields(q)
        <==> p.(price := q.price, image := q.image) == q
  {
  }

  /** The `price` object sent upstream. A field that is `undefined` in the
      source (and so dropped by `JSON.stringify`) is None. */
  datatype PricePayload = PricePayload(
    product: Option<Json>,
    description: Option<string>,
    unitAmount: Option<int>)

  /** The `checkout_session` object sent upstream. */
  datatype SessionPayload = SessionPayload(
    lineItems: Json,
    successUrl: string,
    cancelUrl: string,
    mode: string)

  /** One request made to the gateway. */
  datatype Request =
    | CreateProduct(product: GatewayProduct)
    | CreatePrice(price: PricePayload)
    | CreateSession(session: SessionPayload)

  /** How the checkout-session and price routes answer once the gateway has
      been called: a thrown `fetch` or an ok body that is not JSON is a 500
      with the generic message; a non-ok status is passed through with the
      route's message and the upstream text as `details`; an ok reply is a
      200 carrying the upstream JSON under `key`. */
  function Relay(reply: Reply, failure: string, key: string, success: string): (r: Response)
    ensures reply.Answered? && !IsOk(reply.status) ==>
      r == Response(reply.status, JObj(map["error" := JStr(failure), "details" := JStr(reply.text)]))
    ensures reply.Answered? && IsOk(reply.status) && reply.json.Some? ==>
      r == Response(200, JObj(map["success" := JBool(true), key := reply.json.value, "message" := JStr(success)]))
    ensures reply.Unreachable? || (IsOk(reply.status) && reply.json.None?) ==>
      r == ErrorResponse(500, InternalError)
  {
    match reply
    case Unreachable(_) => ErrorResponse(500, InternalError)
    case Answered(status, text, json) =>
      if !IsOk(status) then
        Response(status, JObj(map["error" := JStr(failure), "details" := JStr(text)]))
      else if json.None? then ErrorResponse(500, InternalError)
      else Response(200, JObj(map["success" := JBool(true), key := json.value, "message" := JStr(success)]))
  }
}
