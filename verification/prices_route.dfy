/** `POST /api/flex/prices`: validate the product id and dollar amount, then
    create an upstream price in cents. */
module PricesRoute {
  import opened Values
  import opened Http
  import opened Gateway
  import opened Money

  const FieldsRequired := "product_id and unit_amount are required"
  const PriceFailedMessage := "Failed to create price in Flex"
  const PriceCreatedMessage := "Price created successfully in Flex"

  /** `Math.round(unit_amount * 100)` for the amounts the model covers: a
      JSON number is rounded to cents, and `true` multiplies as 1. Other
      values are not converted (None). */
  function ForwardedAmount(amount: Json): (c: Option<int>)
    ensures amount.JNum? ==> c == Some(Cents(amount.n))
    ensures amount == JBool(true) ==> c == Some(100)
  {
    match amount
    case JNum(n) => Some(Cents(n))
    case JBool(true) => Some(Cents(1.0))
    case _ => None
  }

  /** `Price for product ${product_id}` for a string id; other ids are
      rendered by the runtime and are not modelled (None). */
  function Description(productId: Json): (d: Option<string>)
    ensures productId.JStr? <==> d.Some?
    ensures productId.JStr? ==> d.value == "Price for product " + productId.s
  {
    if productId.JStr? then Some("Price for product " + productId.s) else None
  }

  /** The route's answer and the price it asked the gateway for, if any. */
  datatype PriceRun = PriceRun(response: Response, upstream: Option<PricePayload>)

  /** Both fields are truthy; a zero amount is rejected like a missing one. */
  predicate ValidFields(body: Json) {
    TruthyMember(body, "product_id") && TruthyMember(body, "unit_amount")
  }

  /** The route, given the parsed request body (None when it is not JSON),
      the configuration and the gateway's reply. */
  function PostPrice(body: Option<Json>, config: Config, reply: Reply): (r: PriceRun)
    ensures body.None? || body == Some(JNull) ==>
      r == PriceRun(ErrorResponse(500, InternalError), None)
    ensures body.Some? && !body.value.JNull? && !ValidFields(body.value) ==>
      r == PriceRun(ErrorResponse(400, FieldsRequired), None)
    ensures r.upstream.Some? <==> body.Some? && !body.value.JNull? && ValidFields(body.value) && Configured(config)
    ensures body.Some? && !body.value.JNull? && ValidFields(body.value) && !Configured(config) ==>
      r == PriceRun(ErrorResponse(500, CredentialsMissing), None)
    ensures r.upstream.Some? ==>
      var id := body.value.fields["product_id"];
      r.upstream.value == PricePayload(Some(id), Description(id), ForwardedAmount(body.value.fields["unit_amount"]))
    ensures r.upstream.Some? ==>
      r.response == Relay(reply, PriceFailedMessage, "price", PriceCreatedMessage)
  {
    match body
    case None => PriceRun(ErrorResponse(500, InternalError), None)
    case Some(b) =>
      if b.JNull? then PriceRun(ErrorResponse(500, InternalError), None)
      else if !ValidFields(b) then PriceRun(ErrorResponse(400, FieldsRequired), None)
      else if !Configured(config) then PriceRun(ErrorResponse(500, CredentialsMissing), None)
      else
        var id := b.fields["product_id"];
        var payload := PricePayload(Some(id), Description(id), ForwardedAmount(b.fields["unit_amount"]));
        PriceRun(Relay(reply, PriceFailedMessage, "price", PriceCreatedMessage), Some(payload))
  }

  /** A zero amount is refused before the configuration is consulted. */
  lemma ZeroAmountRejected(productId: Json, config: Config, reply: Reply)
    ensures PostPrice(Some(JObj(map["product_id" := productId, "unit_amount" := JNum(0.0)])), config, reply)
         == PriceRun(ErrorResponse(400, FieldsRequired), None)
  {
  }
}
