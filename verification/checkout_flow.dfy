/** The header's `handleCheckout`: resolve the cart against the price
    mapping, request a checkout session, and either navigate to the hosted
    checkout page or raise an alert. */
module CheckoutFlow {
  import opened Values
  import opened Http
  import opened Cart
  import opened ApiClient

  /** Why a checkout attempt ended in an alert. */
  datatype Failure =
    | MappingNotFound
    | NoPriceId(name: string)
    | Thrown
    | SessionFailed(error: Option<Json>)

  /** The text of the alert, where the source fixes it. `Thrown` stands for
      errors whose message comes from the JavaScript runtime (a failed
      `fetch`, a body that is not JSON, a property read on `null`), and a
      non-string `result.error` is rendered by the runtime too. */
  function AlertText(f: Failure): Option<string> {
    match f
    case MappingNotFound =>
      Some("Checkout failed: Price mapping not found. Run /api/flex/init first.")
    case NoPriceId(name) =>
      Some("Checkout failed: No price ID found for product: " + name + ". Run /api/flex/init first.")
    case SessionFailed(None) => Some("Checkout failed: undefined")
    case SessionFailed(Some(JStr(s))) => Some("Checkout failed: " + s)
    case _ => None
  }

  /** What the click leads to: nothing, a full navigation to the session's
      `redirect_url`, or an alert. */
  datatype Outcome = Idle | Navigate(url: Json) | Alert(reason: Failure)

  /** One click of the checkout button: its outcome, whether the mapping was
      fetched, the body of the checkout-session request if one was sent, and
      the `isCheckingOut` flag afterwards. */
  datatype CheckoutRun = CheckoutRun(outcome: Outcome, fetchedMapping: bool, sessionRequest: Option<Json>, checkingOut: bool)

  /** `priceMapping[name]` is truthy, so the name has a usable price id. */
  predicate Priced(mapping: Json, name: string) {
    mapping.JObj? && name in mapping.fields && Truthy(mapping.fields[name])
  }

  /** The error thrown for an item without a price id: reading a property of
      a `null` mapping throws a TypeError, otherwise the item is named. */
  function Unpriced(mapping: Json, name: string): Failure {
    if mapping.JNull? then Thrown else NoPriceId(name)
  }

  /** The position of the first cart item without a usable price id, or
      the length of the cart when every item has one. */
  function FirstUnpriced(cart: seq<CartItem>, mapping: Json): (i: nat)
    ensures i <= |cart|
    ensures forall j :: 0 <= j < i ==> Priced(mapping, cart[j].product.name)
    ensures i < |cart| ==> !Priced(mapping, cart[i].product.name)
  {
    if |cart| == 0 || !Priced(mapping, cart[0].product.name) then 0
    else 1 + FirstUnpriced(cart[1..], mapping)
  }

  /** `cartItems.map(...)`: each item becomes `{ price: mapping[name],
      quantity }`, in cart order; the first item without a truthy price id
      aborts the whole resolution. */
  function Resolve(cart: seq<CartItem>, mapping: Json): (r: Result<seq<LineItem>, Failure>)
    ensures r.Ok? <==> forall k :: 0 <= k < |cart| ==> Priced(mapping, cart[k].product.name)
    ensures r.Ok? ==> |r.value| == |cart|
    ensures r.Ok? ==> forall k :: 0 <= k < |cart| ==>
      && Priced(mapping, cart[k].product.name)
      && r.value[k] == LineItem(mapping.fields[cart[k].product.name], cart[k].quantity)
    ensures r.Err? ==> r.error == Unpriced(mapping, cart[FirstUnpriced(cart, mapping)].product.name)
  {
    if |cart| == 0 then Ok([])
    else
      var name := cart[0].product.name;
      if !Priced(mapping, name) then Err(Unpriced(mapping, name))
      else
        match Resolve(cart[1..], mapping)
        case Err(f) => Err(f)
        case Ok(rest) => Ok([LineItem(mapping.fields[name], cart[0].quantity)] + rest)
  }

  /** The redirect target of a successful session call, when truthy. */
  predicate Redirects(result: ApiResponse<Redirect>) {
    result.success && result.data.Some? && Present(result.data.value.redirectUrl)
  }

  /** `handleCheckout`, given the `isCheckingOut` flag before the click, the
      reply to the mapping fetch and the reply to the session request. */
  function HandleCheckout(cart: seq<CartItem>, checkingOut: bool, mappingReply: ClientReply, sessionReply: ClientReply): (r: CheckoutRun)
    ensures |cart| == 0 <==> r.outcome.Idle?
    ensures |cart| == 0 ==> !r.fetchedMapping && r.sessionRequest.None? && r.checkingOut == checkingOut
    ensures |cart| > 0 ==> r.fetchedMapping
    ensures |cart| > 0 && mappingReply.Received? && !mappingReply.ok ==>
      r.outcome == Alert(MappingNotFound) && r.sessionRequest.None?
    ensures r.sessionRequest.Some? <==>
      |cart| > 0 && mappingReply.Received? && mappingReply.ok && mappingReply.json.Some?
      && Resolve(cart, mappingReply.json.value).Ok?
    ensures r.sessionRequest.Some? ==>
      r.sessionRequest == Some(SessionRequest(Resolve(cart, mappingReply.json.value).value))
    ensures r.outcome.Navigate? <==> r.sessionRequest.Some? && Redirects(CreateCheckoutSession(sessionReply))
    ensures r.outcome.Navigate? ==> r.outcome.url == CreateCheckoutSession(sessionReply).data.value.redirectUrl.value
    ensures r.outcome.Navigate? ==> r.checkingOut
    ensures r.outcome.Alert? ==> !r.checkingOut
  {
    if |cart| == 0 then CheckoutRun(Idle, false, None, checkingOut)
    else
      match mappingReply
      case NetworkFailure => CheckoutRun(Alert(Thrown), true, None, false)
      case Received(ok, json) =>
        if !ok then CheckoutRun(Alert(MappingNotFound), true, None, false)
        else if json.None? then CheckoutRun(Alert(Thrown), true, None, false)
        else
          match Resolve(cart, json.value)
          case Err(f) => CheckoutRun(Alert(f), true, None, false)
          case Ok(items) =>
            var request := SessionRequest(items);
            var result := CreateCheckoutSession(sessionReply);
            if Redirects(result) then CheckoutRun(Navigate(result.data.value.redirectUrl.value), true, Some(request), true)
            else CheckoutRun(Alert(SessionFailed(result.error)), true, Some(request), false)
  }

  /** One unmapped item fails the whole checkout, no session is requested,
      and the alert names the first such item. */
  lemma UnmappedItemAborts(cart: seq<CartItem>, checkingOut: bool, mapping: map<string, Json>, sessionReply: ClientReply, k: int)
    requires 0 <= k < |cart| && !Priced(JObj(mapping), cart[k].product.name)
    requires forall j :: 0 <= j < k ==> Priced(JObj(mapping), cart[j].product.name)
    ensures var r := HandleCheckout(cart, checkingOut, Received(true, Some(JObj(mapping))), sessionReply);
      r.sessionRequest.None? && r.outcome == Alert(NoPriceId(cart[k].product.name)) && !r.checkingOut
      && AlertText(r.outcome.reason)
         == Some("Checkout failed: No price ID found for product: " + cart[k].product.name + ". Run /api/flex/init first.")
  {
    var i := FirstUnpriced(cart, JObj(mapping));
    if i < k {
      assert false;
    } else if k < i {
      assert false;
    }
  }
}
