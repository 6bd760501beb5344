/** `POST /api/flex/init`: push every catalog product to the gateway as a
    product and a price, record one result per product, and replace the
    stored price mapping with the price ids obtained. */
module CatalogSync {
  import opened Values
  import opened Http
  import opened Gateway
  import opened Catalog
  import opened Money
  import PriceMappingRoute

  /** The `status` of a result record: `failed`,
      `product_created_price_failed`, `success` or `error`. */
  datatype Status = Failed | ProductCreatedPriceFailed | Succeeded | Errored

  /** One entry of `results`. Fields the source leaves out are None; an
      `error` whose text comes from the JavaScript runtime is None too. */
  datatype SyncRecord = SyncRecord(
    product: string,
    status: Status,
    productId: Option<Json>,
    priceId: Option<Json>,
    price: Option<real>,
    error: Option<string>)

  /** A catalog product together with the gateway's replies to the product
      request and (if one is made) the price request. */
  datatype Attempt = Attempt(product: Product, productReply: Reply, priceReply: Reply)

  /** What processing one product yields: its record, the requests sent, and
      the mapping assignment `priceMapping[name] = price_id` if one is made
      (the inner None is an `undefined` price id). */
  datatype Step = Step(record: SyncRecord, requests: seq<Request>, entry: Option<Option<Json>>)

  /** The price created for a product: its upstream id, a description naming
      the product and the price rounded to cents. */
  function PricePayloadFor(p: Product, productId: Option<Json>): (pp: PricePayload)
    ensures pp.product == productId && pp.unitAmount == Some(Cents(p.price))
    ensures pp.description == Some("Price for " + p.name)
  {
    PricePayload(productId, Some("Price for " + p.name), Some(Cents(p.price)))
  }

  /** A record for a product whose processing threw. */
  function ErrorRecord(name: string, message: Option<string>): SyncRecord {
    SyncRecord(name, Errored, None, None, None, message)
  }

  /** The body of the loop for one product. */
  function SyncOne(a: Attempt): (s: Step)
    ensures s.record.product == a.product.name
    ensures |s.requests| >= 1 && s.requests[0] == CreateProduct(StripLocalFields(a.product))
    ensures s.record.status.Failed? <==> a.productReply.Answered? && !IsOk(a.productReply.status)
    ensures s.record.status.Failed? ==>
      s.requests == [CreateProduct(StripLocalFields(a.product))] && s.record.error == Some(a.productReply.text)
    ensures |s.requests| <= 2
    ensures |s.requests| == 2 <==>
      a.productReply.Answered? && IsOk(a.productReply.status)
      && a.productReply.json.Some? && !a.productReply.json.value.JNull?
    ensures |s.requests| == 2 ==>
      s.requests[1] == CreatePrice(PricePayloadFor(a.product, Member(a.productReply.json.value, "product_id").AsOption()))
    ensures |s.requests| == 2 && !s.record.status.Errored? ==> s.requests[1].price.product == s.record.productId
    ensures s.record.status.ProductCreatedPriceFailed? <==>
      |s.requests| == 2 && a.priceReply.Answered? && !IsOk(a.priceReply.status)
    ensures s.record.status.ProductCreatedPriceFailed? ==> s.record.error == Some(a.priceReply.text)
    ensures s.record.status.Succeeded? <==> s.entry.Some?
    ensures s.record.status.Succeeded? <==>
      |s.requests| == 2 && a.priceReply.Answered? && IsOk(a.priceReply.status)
      && a.priceReply.json.Some? && !a.priceReply.json.value.JNull?
    ensures s.record.status.Succeeded? ==>
      && s.entry == Some(s.record.priceId) && s.record.price == Some(a.product.price)
      && s.record.priceId == Member(a.priceReply.json.value, "price_id").AsOption()
      && s.record.productId == Member(a.productReply.json.value, "product_id").AsOption()
  {
    var p := a.product;
    var first := [CreateProduct(StripLocalFields(p))];
    match a.productReply
    case Unreachable(m) => Step(ErrorRecord(p.name, Some(m)), first, None)
    case Answered(status, text, json) =>
      if !IsOk(status) then
        Step(SyncRecord(p.name, Failed, None, None, None, Some(text)), first, None)
      else if json.None? || json.value.JNull? then
        Step(ErrorRecord(p.name, None), first, None)
      else
        var productId := Member(json.value, "product_id").AsOption();
        var both := first + [CreatePrice(PricePayloadFor(p, productId))];
        match a.priceReply
        case Unreachable(m) => Step(ErrorRecord(p.name, Some(m)), both, None)
        case Answered(priceStatus, priceText, priceJson) =>
          if !IsOk(priceStatus) then
            Step(SyncRecord(p.name, ProductCreatedPriceFailed, productId, None, None, Some(priceText)), both, None)
          else if priceJson.None? || priceJson.value.JNull? then
            Step(ErrorRecord(p.name, None), both, None)
          else
            var priceId := Member(priceJson.value, "price_id").AsOption();
            Step(SyncRecord(p.name, Succeeded, productId, priceId, Some(p.price), None), both, Some(priceId))
  }

  /** The state after the loop: the results, the in-memory mapping and every
      request sent, in order. */
  datatype Sync = Sync(records: seq<SyncRecord>, mapping: map<string, Option<Json>>, requests: seq<Request>)

  /** The names of the products in the catalog. */
  function CatalogNames(attempts: seq<Attempt>): set<string> {
    if |attempts| == 0 then {} else CatalogNames(attempts[..|attempts| - 1]) + {attempts[|attempts| - 1].product.name}
  }

  /** The loop over the catalog, one product after another. */
  function SyncAll(attempts: seq<Attempt>): (r: Sync)
    ensures |r.records| == |attempts|
    ensures |attempts| <= |r.requests| <= 2 * |attempts|
    ensures r.mapping.Keys <= CatalogNames(attempts)
  {
    if |attempts| == 0 then Sync([], map[], [])
    else
      var front := attempts[..|attempts| - 1];
      var prev := SyncAll(front);
      var a := attempts[|attempts| - 1];
      var s := SyncOne(a);
      var mapping := if s.entry.Some? then prev.mapping[a.product.name := s.entry.value] else prev.mapping;
      assert forall k :: 0 <= k < |front| ==> front[k] == attempts[k];
      Sync(prev.records + [s.record], mapping, prev.requests + s.requests)
  }

  /** Whether the product at position `k` was synchronised successfully. */
  predicate SucceededAt(attempts: seq<Attempt>, k: int)
    requires 0 <= k < |attempts|
  {
    SyncOne(attempts[k]).record.status.Succeeded?
  }

  /** The position of the last successful product named `n`, or -1. */
  function LastSuccess(attempts: seq<Attempt>, n: string): (k: int)
    ensures -1 <= k < |attempts|
    ensures k >= 0 ==> SucceededAt(attempts, k) && attempts[k].product.name == n
    ensures forall j :: k < j < |attempts| ==> !(SucceededAt(attempts, j) && attempts[j].product.name == n)
  {
    if |attempts| == 0 then -1
    else
      var last := |attempts| - 1;
      if SucceededAt(attempts, last) && attempts[last].product.name == n then last
      else
        var k := LastSuccess(attempts[..last], n);
        assert forall j :: 0 <= j < last ==> attempts[..last][j] == attempts[j];
        k
  }

  /** Fault isolation: there is one record per product, in catalog order,
      each determined by that product's own replies alone, so a failure never
      affects later products. */
  lemma {:induction false} RecordsPerProduct(attempts: seq<Attempt>)
    ensures |SyncAll(attempts).records| == |attempts|
    ensures forall k :: 0 <= k < |attempts| ==> SyncAll(attempts).records[k] == SyncOne(attempts[k]).record
  {
    if |attempts| > 0 {
      var front := attempts[..|attempts| - 1];
      RecordsPerProduct(front);
      assert forall k :: 0 <= k < |front| ==> front[k] == attempts[k];
    }
  }

  /** The mapping holds exactly the names of successful products, and for
      each the price id of the last success with that name. */
  lemma {:induction false} MappingFromSuccesses(attempts: seq<Attempt>, n: string)
    ensures var k := LastSuccess(attempts, n);
      && (n in SyncAll(attempts).mapping <==> k >= 0)
      && (k >= 0 ==> SyncAll(attempts).mapping[n] == SyncOne(attempts[k]).record.priceId)
  {
    if |attempts| > 0 {
      var last := |attempts| - 1;
      var front := attempts[..last];
      MappingFromSuccesses(front, n);
      var s := SyncOne(attempts[last]);
      var prev := SyncAll(front).mapping;
      MappingStep(attempts);
      if s.entry.Some? && attempts[last].product.name == n {
        assert LastSuccess(attempts, n) == last;
      } else {
        var k := LastSuccess(front, n);
        assert LastSuccess(attempts, n) == k;
        if k >= 0 {
          assert front[k] == attempts[k];
        }
      }
    }
  }

  /** One turn of the loop sets the product's entry when it succeeded and
      leaves the mapping alone otherwise. */
  lemma MappingStep(attempts: seq<Attempt>)
    requires |attempts| > 0
    ensures var s := SyncOne(attempts[|attempts| - 1]);
      var prev := SyncAll(attempts[..|attempts| - 1]).mapping;
      SyncAll(attempts).mapping
        == if s.entry.Some? then prev[attempts[|attempts| - 1].product.name := s.entry.value] else prev
  {
    var a := attempts[|attempts| - 1];
    var before := SyncAll(attempts[..|attempts| - 1]);
    var s := SyncOne(a);
    assert SyncAll(attempts).mapping
      == if s.entry.Some? then before.mapping[a.product.name := s.entry.value] else before.mapping;
  }



  /** Every product's own product request is sent, whatever happened to the
      others, and the loop sends between one and two requests per product
      in total. */
  lemma {:induction false} RequestCount(attempts: seq<Attempt>)
    ensures |attempts| <= |SyncAll(attempts).requests| <= 2 * |attempts|
    ensures forall k :: 0 <= k < |attempts| ==>
      CreateProduct(StripLocalFields(attempts[k].product)) in SyncAll(attempts).requests
  {
    if |attempts| > 0 {
      var last := |attempts| - 1;
      var front := attempts[..last];
      RequestCount(front);
      var prev := SyncAll(front).requests;
      var s := SyncOne(attempts[last]);
      assert SyncAll(attempts).requests == prev + s.requests;
      forall k | 0 <= k < |attempts|
        ensures CreateProduct(StripLocalFields(attempts[k].product)) in SyncAll(attempts).requests
      {
        if k < last {
          assert front[k] == attempts[k];
          var i :| 0 <= i < |prev| && prev[i] == CreateProduct(StripLocalFields(front[k].product));
          assert (prev + s.requests)[i] == prev[i];
        } else {
          assert (prev + s.requests)[|prev|] == s.requests[0];
        }
      }
    }
  }

  /** `JSON.stringify` drops keys whose value is `undefined`. */
  function Serialise(m: map<string, Option<Json>>): (w: map<string, Json>)
    ensures forall n :: n in w <==> n in m && m[n].Some?
    ensures forall n :: n in w ==> w[n] == m[n].value
  {
    map n | n in m && m[n].Some? :: m[n].value
  }

  const InitFailedMessage := "Internal server error during initialization"

  /** The route's answer: an error status with its message, or the results
      and the mapping that was written. */
  datatype InitResponse =
    | InitError(status: int, message: string)
    | InitDone(results: seq<SyncRecord>, priceMapping: map<string, Json>)

  /** The route's answer, the requests it sent and the mapping file after it
      ran (None when a failed write leaves the file in an unknown state). */
  datatype InitRun = InitRun(response: InitResponse, requests: seq<Request>, fileAfter: Option<PriceMappingRoute.MappingFile>)

  /** The route, given the configuration, one attempt per catalog product,
      whether `writeFileSync` succeeds and the mapping file before the run. */
  function PostInit(config: Config, attempts: seq<Attempt>, writeSucceeds: bool, before: PriceMappingRoute.MappingFile): (r: InitRun)
    ensures !Configured(config) <==> r.response == InitError(500, CredentialsMissing)
    ensures !Configured(config) ==> r.requests == [] && r.fileAfter == Some(before)
    ensures Configured(config) ==> r.requests == SyncAll(attempts).requests
    ensures Configured(config) && writeSucceeds ==>
      && r.response == InitDone(SyncAll(attempts).records, Serialise(SyncAll(attempts).mapping))
      && r.fileAfter == Some(PriceMappingRoute.Stored(JObj(Serialise(SyncAll(attempts).mapping))))
    ensures Configured(config) && !writeSucceeds ==>
      r.response == InitError(500, InitFailedMessage) && r.fileAfter.None?
  {
    if !Configured(config) then InitRun(InitError(500, CredentialsMissing), [], Some(before))
    else
      var sync := SyncAll(attempts);
      if !writeSucceeds then InitRun(InitError(500, InitFailedMessage), sync.requests, None)
      else
        var written := Serialise(sync.mapping);
        InitRun(InitDone(sync.records, written), sync.requests, Some(PriceMappingRoute.Stored(JObj(written))))
  }

  /** The mapping is replaced wholesale: what was stored before has no
      influence on what is stored after. */
  lemma MappingReplacedWhole(config: Config, attempts: seq<Attempt>, before1: PriceMappingRoute.MappingFile, before2: PriceMappingRoute.MappingFile)
    requires Configured(config)
    ensures PostInit(config, attempts, true, before1).fileAfter == PostInit(config, attempts, true, before2).fileAfter
  {
  }

  /** How many products were synchronised successfully. */
  function Successes(attempts: seq<Attempt>): nat {
    if |attempts| == 0 then 0
    else Successes(attempts[..|attempts| - 1]) + (if SucceededAt(attempts, |attempts| - 1) then 1 else 0)
  }

  /** Product names are pairwise distinct, as in the catalog. */
  predicate DistinctNames(attempts: seq<Attempt>) {
    forall i, j :: 0 <= i < j < |attempts| ==> attempts[i].product.name != attempts[j].product.name
  }

  /** With distinct names, the mapping has one entry per successful product. */
  lemma {:induction false} MappingSize(attempts: seq<Attempt>)
    requires DistinctNames(attempts)
    ensures |SyncAll(attempts).mapping| == Successes(attempts)
  {
    if |attempts| > 0 {
      var last := |attempts| - 1;
      var front := attempts[..last];
      var n := attempts[last].product.name;
      assert forall j :: 0 <= j < last ==> front[j] == attempts[j];
      MappingSize(front);
      MappingFromSuccesses(front, n);
      assert LastSuccess(front, n) < 0;
    }
  }

  /** With N products where exactly one fails product creation and the rest
      succeed with distinct names, the N results hold N-1 successes and the
      mapping gets N-1 entries. */
  lemma OneFailureExample(attempts: seq<Attempt>, bad: int)
    requires 0 <= bad < |attempts| && DistinctNames(attempts)
    requires attempts[bad].productReply.Answered? && !IsOk(attempts[bad].productReply.status)
    requires forall k :: 0 <= k < |attempts| && k != bad ==> SucceededAt(attempts, k)
    ensures SyncOne(attempts[bad]).record.status == Failed
    ensures |SyncAll(attempts).records| == |attempts|
    ensures Successes(attempts) == |attempts| - 1
    ensures |SyncAll(attempts).mapping| == |attempts| - 1
  {
    RecordsPerProduct(attempts);
    AllButOne(attempts, bad);
    MappingSize(attempts);
  }

  lemma {:induction false} AllButOne(attempts: seq<Attempt>, bad: int)
    requires 0 <= bad < |attempts| && !SucceededAt(attempts, bad)
    requires forall k :: 0 <= k < |attempts| && k != bad ==> SucceededAt(attempts, k)
    ensures Successes(attempts) == |attempts| - 1
  {
    var last := |attempts| - 1;
    var front := attempts[..last];
    if bad < last {
      forall k | 0 <= k < |front| && k != bad
        ensures SucceededAt(front, k)
      {
        assert SucceededAt(attempts, k);
        assert front[k] == attempts[k];
      }
      assert front[bad] == attempts[bad];
      AllButOne(front, bad);
    } else {
      forall k | 0 <= k < |front|
        ensures SucceededAt(front, k)
      {
        assert SucceededAt(attempts, k);
        assert front[k] == attempts[k];
      }
      AllSucceed(front);
    }
  }

  lemma {:induction false} AllSucceed(attempts: seq<Attempt>)
    requires forall k :: 0 <= k < |attempts| ==> SucceededAt(attempts, k)
    ensures Successes(attempts) == |attempts|
  {
    if |attempts| > 0 {
      var front := attempts[..|attempts| - 1];
      forall k | 0 <= k < |front|
        ensures SucceededAt(front, k)
      {
        assert SucceededAt(attempts, k);
        assert front[k] == attempts[k];
      }
      AllSucceed(front);
    }
  }
}
