/** Properties of the whole flow, across the browser, the routes and the
    gateway: what a checkout sees after the catalog sync, and how the
    client's requests fare at the routes. */
module EndToEnd {
  import opened Values
  import opened Http
  import opened Gateway
  import opened Money
  import opened Cart
  import opened ApiClient
  import opened CheckoutFlow
  import opened PriceMappingRoute
  import opened SessionsRoute
  import opened PricesRoute
  import opened CatalogSync

  /** Before the catalog sync has written a mapping, a checkout of a
      non-empty cart reports "not initialized", distinctly from an unmapped
      product, and requests no session. */
  lemma AbsentMappingMeansNotInitialized(cart: seq<CartItem>, checkingOut: bool, sessionReply: ClientReply)
    requires |cart| > 0
    ensures HandleCheckout(cart, checkingOut, Deliver(GetPriceMapping(Absent)), sessionReply)
         == CheckoutRun(Alert(MappingNotFound), true, None, false)
    ensures AlertText(HandleCheckout(cart, checkingOut, Deliver(GetPriceMapping(Absent)), sessionReply).outcome.reason)
         == Some("Checkout failed: Price mapping not found. Run /api/flex/init first.")
  {
  }

  /** The mapping the browser receives after a completed sync. */
  function ServedAfterSync(attempts: seq<Attempt>): Json {
    GetPriceMapping(Stored(JObj(Serialise(SyncAll(attempts).mapping)))).body
  }

  /** After a sync, a product name resolves at checkout iff it is not `note`
      and its last successful sync returned a non-empty string price id; it
      then resolves to that id. */
  lemma {:induction false} ServedPriceIds(attempts: seq<Attempt>, n: string)
    ensures var k := LastSuccess(attempts, n);
      Priced(ServedAfterSync(attempts), n) <==>
        && n != "note" && k >= 0
        && SyncOne(attempts[k]).record.priceId.Some?
        && SyncOne(attempts[k]).record.priceId.value.JStr?
        && |SyncOne(attempts[k]).record.priceId.value.s| > 0
    ensures var k := LastSuccess(attempts, n);
      Priced(ServedAfterSync(attempts), n) ==>
        ServedAfterSync(attempts).fields[n] == SyncOne(attempts[k]).record.priceId.value
  {
    MappingFromSuccesses(attempts, n);
  }

  /** The request the browser sends for a resolved, non-empty cart always
      passes the route's input check, and the route forwards the items
      unchanged in payment mode, or refuses with 500 when unconfigured. */
  lemma ClientRequestPassesValidation(items: seq<LineItem>, config: Config, headers: Headers, reply: Reply)
    requires |items| > 0
    ensures var r := PostCheckoutSession(Some(SessionRequest(items)), config, headers, reply);
      && r.response != ErrorResponse(400, LineItemsRequired)
      && (r.upstream.Some? <==> Configured(config))
      && (Configured(config) ==>
            r.upstream == Some(SessionPayload(SessionRequest(items).fields["line_items"],
              SuccessUrl(BaseUrl(headers)), CancelUrl(BaseUrl(headers)), "payment")))
      && (!Configured(config) ==> r == SessionRun(ErrorResponse(500, CredentialsMissing), None))
  {
    var body := SessionRequest(items);
    assert Member(body, "line_items") == Found(body.fields["line_items"]);
    assert |body.fields["line_items"].items| > 0;
    var r := PostCheckoutSession(Some(body), config, headers, reply);
    if Configured(config) && reply.Answered? && !IsOk(reply.status) {
      assert "details" in r.response.body.fields;
      assert "details" !in ErrorResponse(400, LineItemsRequired).body.fields;
    }
  }

  /** A gateway session body carrying `checkout_session.redirect_url`. */
  function GatewaySession(url: Json): Json {
    JObj(map["checkout_session" := JObj(map["redirect_url" := url])])
  }

  /** A fully resolved cart, a configured route and a gateway that returns a
      truthy redirect target lead to exactly one navigation, to that
      target, with `isCheckingOut` left set. */
  lemma CheckoutNavigatesToRedirect(
    cart: seq<CartItem>, checkingOut: bool, mapping: Json, config: Config, headers: Headers,
    status: int, text: string, url: Json)
    requires |cart| > 0 && Resolve(cart, mapping).Ok?
    requires Configured(config) && IsOk(status) && Truthy(url)
    ensures var request := SessionRequest(Resolve(cart, mapping).value);
      var route := PostCheckoutSession(Some(request), config, headers, Answered(status, text, Some(GatewaySession(url))));
      var r := HandleCheckout(cart, checkingOut, Received(true, Some(mapping)), Deliver(route.response));
      r.sessionRequest == Some(request) && r.outcome == Navigate(url) && r.checkingOut
  {
    var items := Resolve(cart, mapping).value;
    ClientRequestPassesValidation(items, config, headers, Answered(status, text, Some(GatewaySession(url))));
    var route := PostCheckoutSession(Some(SessionRequest(items)), config, headers, Answered(status, text, Some(GatewaySession(url))));
    assert route.response.body == JObj(map["success" := JBool(true), "checkout_session" := GatewaySession(url), "message" := JStr(SessionCreatedMessage)]);
    SessionRedirectRead(map["redirect_url" := url], url);
  }

  /** A gateway error status leads to no navigation: the browser alerts with
      the route's message and clears `isCheckingOut`, so the user can retry
      with the cart unchanged. */
  lemma GatewayErrorAlerts(
    cart: seq<CartItem>, checkingOut: bool, mapping: Json, config: Config, headers: Headers,
    status: int, text: string, json: Option<Json>)
    requires |cart| > 0 && Resolve(cart, mapping).Ok?
    requires Configured(config) && !IsOk(status)
    ensures var request := SessionRequest(Resolve(cart, mapping).value);
      var route := PostCheckoutSession(Some(request), config, headers, Answered(status, text, json));
      var r := HandleCheckout(cart, checkingOut, Received(true, Some(mapping)), Deliver(route.response));
      r.outcome == Alert(SessionFailed(Some(JStr(SessionFailedMessage)))) && !r.checkingOut
      && AlertText(r.outcome.reason) == Some("Checkout failed: " + SessionFailedMessage)
  {
    var items := Resolve(cart, mapping).value;
    ClientRequestPassesValidation(items, config, headers, Answered(status, text, json));
    var route := PostCheckoutSession(Some(SessionRequest(items)), config, headers, Answered(status, text, json));
    var body := JObj(map["error" := JStr(SessionFailedMessage), "details" := JStr(text)]);
    assert route.response == Response(status, body);
    assert Member(body, "error") == Found(JStr(SessionFailedMessage));
    var result := CreateCheckoutSession(Deliver(route.response));
    assert result.error == Some(JStr(SessionFailedMessage)) && !result.success;
    assert AlertText(SessionFailed(Some(JStr(SessionFailedMessage)))) == Some("Checkout failed: " + SessionFailedMessage);
  }

  /** The price request the client builds passes the route's check when the
      id is non-empty and the amount non-zero, and the route forwards the
      amount rounded to cents with a description naming the product. */
  lemma PriceRequestForwarded(productId: string, amount: real, config: Config, reply: Reply)
    requires |productId| > 0 && amount != 0.0 && Configured(config)
    ensures PostPrice(Some(PriceRequest(productId, amount)), config, reply).upstream
         == Some(PricePayload(Some(JStr(productId)), Some("Price for product " + productId), Some(Cents(amount))))
  {
    var body := PriceRequest(productId, amount);
    assert Member(body, "product_id") == Found(JStr(productId));
    assert Member(body, "unit_amount") == Found(JNum(amount));
  }
}
