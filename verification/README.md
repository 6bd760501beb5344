# FlexHealth storefront: a Dafny model of the cart, checkout and gateway routes

This project models the logic at the core of a small Next.js storefront that sells HSA/FSA-eligible
products through an upstream payment gateway called "Flex". It covers:

- **The cart** (`Cart`). This is the `addToCart` reducer of the product grid, together with the
  `cartCount` and `cartTotal` values the header derives from it.
- **Checkout** (`CheckoutFlow`). This is the header's `handleCheckout`:
  - fetch the price mapping;
  - turn every cart entry into a `{ price, quantity }` line item;
  - ask for a checkout session;
  - then either navigate to the hosted payment page or raise an alert.
- **The price-mapping route** (`PriceMappingRoute`). This is `GET /api/flex/price-mapping`, which
  serves the stored name → price-id mapping with the `note` key and unusable values removed.
- **The catalog sync** (`CatalogSync`). This is `POST /api/flex/init`. It pushes each catalog product
  to the gateway as a product and then a price, and records one result per product. It then
  replaces the stored mapping with the price ids it obtained.
- **The checkout-session route** (`SessionsRoute`). This is `POST /api/flex/checkout/sessions`. It
  validates the input, checks the configuration, builds the callback URLs and passes the upstream
  status through.
- **The prices route** (`PricesRoute`). This is `POST /api/flex/prices`. It validates the input and
  converts dollars to cents.
- **The browser API client** (`ApiClient`). This is `src/lib/api.ts`, which maps each raw HTTP outcome
  (ok, non-ok, or thrown) to an `ApiResponse`.

`cartCount` and `cartTotal` are `Cart.Count` and `Cart.Total`: left-to-right sums of the quantities
and of price × quantity. The cart lemmas below are stated about these two definitions.

`EndToEnd` connects these pieces. It covers what checkout sees after a sync, and how the client's own
requests fare at the routes.

The shared vocabulary lives in `Values`, `Http`, `Gateway`, `Money` and `Catalog`.

- **JSON values.** JSON is a datatype. JavaScript truthiness and lookup of an object's own
  properties are written out: reading a property of `null` or `undefined` throws a TypeError.
- **Outside effects.** Every `fetch`, file read, file write and environment variable is an input
  value:
  - `Reply` is a gateway reply;
  - `ClientReply` is what a browser `fetch` yields;
  - `MappingFile` is the state of the stored mapping;
  - `Config` is the environment configuration;
  - `writeSucceeds` says whether the mapping write succeeds.
- **Money.** Amounts are exact reals. `Math.round(x * 100)` is `Floor(100·x + 1/2)`, which is
  round-half-up, as JavaScript rounds.

The model keeps these behaviours of the code, which a reader might not expect:

- Checkout rejects a mapping entry that is present but falsy (an empty string, `0`, `false`, `null`),
  not only a missing one (`CheckoutFlow.Priced`).
- A non-ok mapping fetch gives "Price mapping not found" whatever its status. That includes a 500
  caused by an unreadable file.
- A mapping body that parses to `null` makes `priceMapping[item.name]` throw. Checkout then fails with
  the runtime's message rather than naming the item (`CheckoutFlow.Unpriced`).
- When the route's body cannot be parsed, or parses to `null`, the routes answer 500
  "Internal server error" rather than 400. This happens because the destructuring throws first.

## Model

| member | source | states |
|---|---|---|
| Cart.FindIndex | src/components/ProductGrid.tsx:18 | The index is -1 exactly when no entry has the name. Otherwise it is the first entry with that name. |
| Cart.AddToCart | src/components/ProductGrid.tsx:15-33 | If the name is present, the length is kept and only the quantity of the first matching entry rises, by exactly 1. Otherwise `{product, quantity: 1}` is appended at the end. Every other entry keeps its place and contents, and a bumped entry keeps its stored product fields. |
| Cart.AddToCartKeepsNamesUnique | src/components/ProductGrid.tsx:18-31 | Adding a product never creates a second entry with the same name. |
| Cart.AddToCartKeepsQuantitiesPositive | src/components/ProductGrid.tsx:25-30 | Adding a product keeps every quantity at least 1. |
| Cart.AddToCartCount | src/components/Header.tsx:15 | Each add raises `cartCount` by exactly one. |
| Cart.AddToCartTotal | src/components/Header.tsx:16-19 | Each add raises `cartTotal` by the stored price of the bumped entry, or by the new product's price when it is appended. |
| Cart.AddToCartNames | src/components/ProductGrid.tsx:20-31 | The names after an add are the names before it, plus the new name at the end when it was not present. |
| Cart.AddToCartSummarises | src/components/ProductGrid.tsx:15-33 | Suppose the cart records, for a product sequence, each name once with its number of occurrences. After one more add, it does the same for the extended sequence. |
| Cart.AddAllSummarises | src/components/ProductGrid.tsx:15-33 | After any sequence of adds from an empty cart, the names are distinct and each quantity is the number of times that name was added. The count equals the number of adds. |
| Cart.AddAllNamesUnique | src/components/ProductGrid.tsx:18-31 | After any sequence of adds from an empty cart, names are pairwise distinct. |
| Cart.AddAllQuantitiesPositive | src/components/ProductGrid.tsx:25-30 | After any sequence of adds from an empty cart, every quantity is at least 1. |
| Cart.AddAllCount | src/components/Header.tsx:15 | After n adds from an empty cart, `cartCount` is n. |
| Cart.AddAllQuantities | src/components/ProductGrid.tsx:20-30 | After any sequence of adds from an empty cart, each entry's quantity is the number of times its name was added. |
| Cart.AddAllNames | src/components/ProductGrid.tsx:18-31 | After any sequence of adds from an empty cart, a name has an entry iff a product with that name was added. |
| Cart.AddAllTotal | src/components/Header.tsx:16-19 | If products with the same name share a price, then after any sequence of adds the cart total is the sum of the added prices. |
| Cart.TwoAddsExample | src/components/ProductGrid.tsx:20-30 | Adding the same product twice gives one entry with quantity 2. A cart of 10.00 × 2 and 5.50 × 1 totals 25.50. |
| Money.Cents | src/app/api/flex/init/route.ts:64 | The cent amount is the integer within half a cent of price × 100, with halves rounding up. |
| Money.CentsOfWholeCents | src/app/api/flex/init/route.ts:64 | An amount that is already a whole number of cents converts to exactly that number. |
| Money.CentsExample | src/app/api/flex/init/route.ts:64 | 19.99 becomes 1999, 0.125 becomes 13 and 1.00 becomes 100. |
| Money.CentsMonotone | src/app/api/flex/prices/route.ts:36 | A larger dollar amount never converts to fewer cents. |
| Values.Member | src/app/api/flex/checkout/sessions/route.ts:5 | Reading a property throws exactly on `null`. It yields a value exactly when the object has that key as its own, and that value is the field. |
| CheckoutFlow.FirstUnpriced | src/components/Header.tsx:35-41 | The position of the first cart item without a truthy price id. Every item before it is priced. |
| CheckoutFlow.Resolve | src/components/Header.tsx:35-46 | Resolution succeeds iff every item has a truthy price id. It then keeps the cart's length and order, with `price = mapping[name]` and the same quantity. Otherwise it fails on the first unpriced item, naming it. |
| CheckoutFlow.HandleCheckout | src/components/Header.tsx:21-63 | An empty cart does nothing: no fetch, no request, no flag change. A non-ok mapping fetch alerts "Price mapping not found" with no session request. A session is requested iff the mapping was received and every item resolves, with exactly the resolved line items. Navigation happens iff the session result succeeded with a truthy `redirect_url`, and goes to that URL. Every alert clears `isCheckingOut`. |
| CheckoutFlow.UnmappedItemAborts | src/components/Header.tsx:36-41 | If the k-th item is the first one without a price id, checkout requests no session, clears `isCheckingOut`, and alerts "Checkout failed: No price ID found for product: <name>. Run /api/flex/init first." for that item. |
| PriceMappingRoute.Entries | src/app/api/flex/price-mapping/route.ts:23 | `Object.entries` fails exactly on `null`, which the route turns into its 500 answer. An object yields exactly its own fields. |
| PriceMappingRoute.Clean | src/app/api/flex/price-mapping/route.ts:22-26 | The cleaned mapping never has `note`. Every value is a non-empty string. Every kept key keeps its original value, and every entry with a key other than `note` and a non-empty string value is kept. |
| PriceMappingRoute.GetPriceMapping | src/app/api/flex/price-mapping/route.ts:5-36 | A missing file gives exactly the 404 "Run /api/flex/init first" answer. An unreadable or `null` mapping gives exactly the 500 "Failed to load price mapping". An object gives 200 with its cleaned entries. No other status occurs. |
| PriceMappingRoute.CleanIdempotent | src/app/api/flex/price-mapping/route.ts:22-26 | Cleaning a cleaned mapping changes nothing. |
| PriceMappingRoute.CleanKeepsWellFormed | src/app/api/flex/price-mapping/route.ts:22-26 | A mapping of non-empty strings without `note` is served unchanged. |
| PriceMappingRoute.ServedKeys | src/app/api/flex/price-mapping/route.ts:22-28 | A key is served iff it is not `note` and the stored value is a non-empty string. |
| Gateway.StripForgetsOnlyPriceAndImage | src/app/api/flex/init/route.ts:28-39 | Two products are sent upstream identically iff they differ only in `price` and `image`. |
| Gateway.Relay | src/app/api/flex/checkout/sessions/route.ts:47-70 | A non-ok upstream status is returned unchanged, with the route's message and the upstream text as `details`. An ok reply returns 200 with the upstream JSON. A thrown call or an unparsable ok body returns 500. |
| CatalogSync.SyncOne | src/app/api/flex/init/route.ts:24-114 | The product request always comes first, stripped of local fields. The price request is sent iff the product reply is ok and parses to a non-`null` body, and then carries the returned `product_id`. A non-ok product reply gives `failed` with the upstream text and no price request. The status is `product_created_price_failed` iff the price request was sent and its reply is non-ok; the record then carries the product id and the upstream text. The status is `success` iff the price reply is ok and parses to a non-`null` body. The record then carries that body's `price_id` and the product's `product_id`, and the mapping entry is that `price_id`. A mapping entry is made only on `success`. |
| CatalogSync.SyncAll | src/app/api/flex/init/route.ts:23-115 | The loop yields one record per product and sends between one and two requests per product. The mapping only ever has catalog product names as keys. |
| CatalogSync.LastSuccess | src/app/api/flex/init/route.ts:94 | The position of the last successful product with a given name, or -1 when there is none. No later product with that name succeeded. |
| CatalogSync.RecordsPerProduct | src/app/api/flex/init/route.ts:23-115 | There is exactly one record per catalog product, in catalog order. Each record is determined by that product's own replies, so a failure never affects later products. |
| CatalogSync.MappingFromSuccesses | src/app/api/flex/init/route.ts:93-94 | The mapping's keys are exactly the names of successful products. Each holds the price id of the last success with that name. |
| CatalogSync.RequestCount | src/app/api/flex/init/route.ts:23-115 | Every product's own product request, stripped of local fields, is sent whatever happened to the others. In total the loop sends between one and two requests per product. |
| CatalogSync.Serialise | src/app/api/flex/init/route.ts:119 | Writing the mapping drops exactly the entries whose price id is `undefined`, and keeps the rest unchanged. |
| CatalogSync.PostInit | src/app/api/flex/init/route.ts:6-139 | Missing credentials give the 500 answer, with no gateway request and the stored file untouched. Otherwise the requests are the loop's. A successful write stores and returns exactly the serialised mapping, along with the records. A failed write answers 500. |
| CatalogSync.MappingReplacedWhole | src/app/api/flex/init/route.ts:117-119 | The stored mapping after a sync does not depend on what was stored before. |
| CatalogSync.MappingSize | src/app/api/flex/init/route.ts:93-94 | With distinct product names, the mapping has exactly one entry per successful product. |
| CatalogSync.AllButOne | src/app/api/flex/init/route.ts:23-115 | If every product but one succeeds, the success count is one less than the number of products. |
| CatalogSync.AllSucceed | src/app/api/flex/init/route.ts:23-115 | If every product succeeds, the success count is the number of products. |
| CatalogSync.OneFailureExample | src/app/api/flex/init/route.ts:42-51 | Take N distinctly named products where one fails product creation and the rest succeed. That one is `failed`, there are N records, and the mapping gets N-1 entries. |
| SessionsRoute.Protocol | src/app/api/flex/checkout/sessions/route.ts:26 | The protocol is the forwarded one when set and non-empty, and `http` otherwise. |
| SessionsRoute.PostCheckoutSession | src/app/api/flex/checkout/sessions/route.ts:3-71 | Items that are missing, not an array or empty give 400 before the configuration is consulted. A valid request with missing credentials gives 500. The gateway is called iff both checks pass. It receives the items unchanged, the two callback URLs and `payment` mode. Its answer is relayed. |
| SessionsRoute.UpstreamStatusPassedThrough | src/app/api/flex/checkout/sessions/route.ts:47-54 | A non-ok upstream status reaches the browser unchanged, with the upstream text as `details`. |
| SessionsRoute.CallbacksShareOrigin | src/app/api/flex/checkout/sessions/route.ts:26-41 | Both callback URLs start with the request's own base URL. Without a forwarded protocol, host `shop.example` gives `http://shop.example`. |
| PricesRoute.ForwardedAmount | src/app/api/flex/prices/route.ts:36 | A numeric amount is forwarded rounded to cents, and `true` counts as one dollar. |
| PricesRoute.Description | src/app/api/flex/prices/route.ts:35 | A string product id is described as "Price for product <id>". |
| PricesRoute.PostPrice | src/app/api/flex/prices/route.ts:3-65 | A falsy `product_id` or `unit_amount` gives 400 before the configuration is consulted. A valid request with missing credentials gives 500. The gateway is called iff both checks pass, with the id, the description and the amount in cents. Its answer is relayed. |
| PricesRoute.ZeroAmountRejected | src/app/api/flex/prices/route.ts:7-12 | An amount of 0 is refused with 400, like a missing one, whatever the configuration. |
| ApiClient.Rejection | src/lib/api.ts:27-33 | A non-ok reply fails with `error` set to the body's error when truthy, and to the call's fallback otherwise, with `details` copied. A `null` body becomes the network error. |
| ApiClient.Settle | src/lib/api.ts:16-45 | Success holds exactly for an ok, parsed, non-`null` body whose data read does not throw, and then carries no error. A non-ok reply is the rejection. Everything thrown is the network error. |
| ApiClient.CreateProductInFlex | src/lib/api.ts:13-46 | Success holds exactly for an ok reply with a readable body, and its data is `result.product`. A non-ok reply falls back to "Failed to create product". Anything thrown gives the network error. |
| ApiClient.CreatePriceInFlex | src/lib/api.ts:49-83 | Success holds exactly for an ok reply with a readable body, and its data is `result.price`. A non-ok reply falls back to "Failed to create price". Anything thrown gives the network error. |
| ApiClient.CreateCheckoutSession | src/lib/api.ts:86-119 | Success holds exactly for an ok reply whose nested `checkout_session.checkout_session` read does not throw, and its data is that `redirect_url`. A non-ok reply falls back to "Failed to create checkout session". A thrown fetch, an unparsable or `null` body, or a missing nested session on an ok reply gives the network error. |
| ApiClient.SessionRequest | src/lib/api.ts:95 | The request body is `{ line_items }`, with the items in order and unchanged. |
| ApiClient.SessionRedirectRead | src/lib/api.ts:108-111 | An ok body with nested sessions holding a redirect URL gives success with exactly that URL. |
| ApiClient.NeverSuccessWithError | src/lib/api.ts:13-119 | No call ever reports success together with an error. |
| EndToEnd.AbsentMappingMeansNotInitialized | src/components/Header.tsx:28-31 | Before any sync has written a mapping, checking out a non-empty cart requests no session and alerts "Checkout failed: Price mapping not found. Run /api/flex/init first." |
| EndToEnd.ServedPriceIds | src/app/api/flex/init/route.ts:94 | After a sync, a name resolves at checkout iff it is not `note` and its last successful sync returned a non-empty string price id. It then resolves to that id. |
| EndToEnd.ClientRequestPassesValidation | src/app/api/flex/checkout/sessions/route.ts:7-23 | The client's request for a non-empty resolved cart never draws the route's 400. The gateway is called iff the route is configured, with the items unchanged. |
| EndToEnd.CheckoutNavigatesToRedirect | src/components/Header.tsx:48-51 | A resolved cart, a configured route and an ok gateway session with a truthy redirect lead to navigation to exactly that URL, with `isCheckingOut` still set. |
| EndToEnd.GatewayErrorAlerts | src/components/Header.tsx:52-55 | A gateway error status leads to the alert "Checkout failed: Failed to create checkout session", and `isCheckingOut` is cleared. |
| EndToEnd.PriceRequestForwarded | src/app/api/flex/prices/route.ts:32-38 | The client's price request for a non-empty id and a non-zero amount reaches the gateway with that id, "Price for product <id>", and the amount in cents. |

## Left out

- Floating point. Prices, totals and cent conversion use exact reals, so IEEE-754 rounding of
  `price * quantity` and of `Math.round(price * 100)` is not modelled.
- The 500 ms `setTimeout` pause between products in the sync loop only paces requests, so it is not
  modelled.
- Console logging is not modelled. The `alert` and `window.location` side effects are reduced to the
  outcomes `Alert` and `Navigate`. React's `useState` scheduling is not modelled: the cart reducer is
  applied directly.
- JSX rendering, the page and info components, the checkout success and cancel pages, and
  ProductCard's badges are display only.
- The product pass-through routes (`products/route.ts`, `products/list/route.ts`) are not modelled.
  Their only logic, field stripping, is `Gateway.StripLocalFields`.
- The mismatch between the catalog's eligibility labels and the enum the types declare is a data
  defect. Eligibility is kept as plain text.
- The real `fetch`, `fs`, `process.env` and `JSON.parse` are not modelled. Their results are
  parameters: `Reply`, `ClientReply`, `MappingFile`, `Config` and `writeSucceeds`.
- PriceMappingRoute.Entries: a mapping file whose content is an array or a string has index-keyed
  entries under `Object.entries`. The model gives such content no entries.
- PricesRoute.ForwardedAmount: JavaScript's coercion of a numeric string, an array or an object
  multiplied by 100 is not modelled. Those amounts are forwarded as None.
- PricesRoute.Description: a product id that is not a string is rendered by the runtime, so its text is
  None.
- CatalogSync.SyncOne: an error whose message comes from the runtime has error None. Examples are a
  body that is not JSON, or a property read on `null`.
- CatalogSync.PostInit: a failed mapping write leaves the file in an unknown state, modelled as None.
- CheckoutFlow.AlertText: alert text for runtime-generated errors and non-string `error` values is
  None. This covers network failures, parse failures and TypeErrors.
- Values.Member: only an object's own keys are found. Inherited properties are not modelled. In
  JavaScript a mapping without a `constructor`, `toString`, `valueOf` or `__proto__` key still yields
  a truthy built-in for those names. Index keys and `length` on strings and arrays are not modelled
  either. The model reports such names as unpriced.
