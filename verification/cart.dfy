/** The client-side cart: the `addToCart` reducer of the product grid and
    the item count and total the header derives from the cart. */
module Cart {
  import opened Catalog

  /** A cart entry: the product as it was first added, and how many. */
  datatype CartItem = CartItem(product: Product, quantity: int)

  /** The product names of the cart, in cart order. */
  function Names(cart: seq<CartItem>): (ns: seq<string>)
    ensures |ns| == |cart|
    ensures forall k :: 0 <= k < |cart| ==> ns[k] == cart[k].product.name
  {
    seq(|cart|, k requires 0 <= k < |cart| => cart[k].product.name)
  }

  /** No two entries share a product name. */
  predicate UniqueNames(cart: seq<CartItem>) {
    forall i, j :: 0 <= i < j < |cart| ==> cart[i].product.name != cart[j].product.name
  }

  /** Every entry has a quantity of at least one. */
  predicate QuantitiesPositive(cart: seq<CartItem>) {
    forall k :: 0 <= k < |cart| ==> cart[k].quantity >= 1
  }

  /** `prev.findIndex(item => item.name === name)`: the first entry with that
      name, or -1 when there is none. */
  function FindIndex(cart: seq<CartItem>, name: string): (i: int)
    ensures -1 <= i < |cart|
    ensures i == -1 <==> name !in Names(cart)
    ensures 0 <= i ==> cart[i].product.name == name
    ensures 0 <= i ==> forall k :: 0 <= k < i ==> cart[k].product.name != name
  {
    if |cart| == 0 then -1
    else if cart[0].product.name == name then 0
    else
      var j := FindIndex(cart[1..], name);
      assert Names(cart) == [cart[0].product.name] + Names(cart[1..]);
      if j < 0 then -1 else j + 1
  }

  /** `addToCart(product)`: bump the quantity of the entry with the product's
      name, keeping that entry's stored fields, or append the product with
      quantity 1. Every other entry keeps its place and contents. */
  function AddToCart(cart: seq<CartItem>, p: Product): (r: seq<CartItem>)
    ensures p.name in Names(cart) ==> |r| == |cart|
    ensures p.name !in Names(cart) ==> |r| == |cart| + 1 && r[|cart|] == CartItem(p, 1)
    ensures forall k :: 0 <= k < |cart| ==> r[k].product == cart[k].product
    ensures forall k :: 0 <= k < |cart| ==>
      r[k].quantity == cart[k].quantity + (if k == FindIndex(cart, p.name) then 1 else 0)
  {
    var i := FindIndex(cart, p.name);
    if i >= 0 then
      cart[i := cart[i].(quantity := cart[i].quantity + 1)]
    else
      cart + [CartItem(p, 1)]
  }

  /** The cart after adding each product of `ps` in turn. */
  function AddAll(cart: seq<CartItem>, ps: seq<Product>): seq<CartItem> {
    if |ps| == 0 then cart
    else AddToCart(AddAll(cart, ps[..|ps| - 1]), ps[|ps| - 1])
  }

  /** `cartCount`: the left-to-right sum of the quantities. */
  function Count(cart: seq<CartItem>): int {
    if |cart| == 0 then 0
    else Count(cart[..|cart| - 1]) + cart[|cart| - 1].quantity
  }

  /** The line amount of one entry: price times quantity, in exact dollars. */
  function LineAmount(item: CartItem): real {
    item.product.price * item.quantity as real
  }

  /** `cartTotal`: the left-to-right sum of the line amounts. */
  function Total(cart: seq<CartItem>): real {
    if |cart| == 0 then 0.0
    else Total(cart[..|cart| - 1]) + LineAmount(cart[|cart| - 1])
  }

  /** How many products of `ps` carry the name `n`. */
  function Occurrences(ps: seq<Product>, n: string): nat {
    if |ps| == 0 then 0
    else Occurrences(ps[..|ps| - 1], n) + (if ps[|ps| - 1].name == n then 1 else 0)
  }

  /** The sum of the prices of `ps`. */
  function SumPrices(ps: seq<Product>): real {
    if |ps| == 0 then 0.0 else SumPrices(ps[..|ps| - 1]) + ps[|ps| - 1].price
  }

  /** Products that share a name share a price, as in a catalog keyed by name. */
  predicate ConsistentPrices(ps: seq<Product>) {
    forall i, j :: 0 <= i < |ps| && 0 <= j < |ps| && ps[i].name == ps[j].name ==> ps[i].price == ps[j].price
  }

  // ---------------------------------------------------------------------
  // Sums over an updated or extended cart

  lemma {:induction false} CountUpdate(cart: seq<CartItem>, i: int, x: CartItem)
    requires 0 <= i < |cart|
    ensures Count(cart[i := x]) == Count(cart) - cart[i].quantity + x.quantity
    decreases |cart|
  {
    var n := |cart|;
    var u := cart[i := x];
    if i == n - 1 {
      assert u[..n - 1] == cart[..n - 1];
    } else {
      assert u[..n - 1] == cart[..n - 1][i := x];
      CountUpdate(cart[..n - 1], i, x);
    }
  }

  lemma {:induction false} TotalUpdate(cart: seq<CartItem>, i: int, x: CartItem)
    requires 0 <= i < |cart|
    ensures Total(cart[i := x]) == Total(cart) - LineAmount(cart[i]) + LineAmount(x)
    decreases |cart|
  {
    var n := |cart|;
    var u := cart[i := x];
    if i == n - 1 {
      assert u[..n - 1] == cart[..n - 1];
    } else {
      assert u[..n - 1] == cart[..n - 1][i := x];
      TotalUpdate(cart[..n - 1], i, x);
    }
  }

  lemma OneMore(item: CartItem)
    ensures LineAmount(item.(quantity := item.quantity + 1)) == LineAmount(item) + item.product.price
  {
  }

  lemma AppendPrefix(cart: seq<CartItem>, x: CartItem)
    ensures (cart + [x])[..|cart|] == cart
  {
  }

  // ---------------------------------------------------------------------
  // One add

  /** Adding keeps product names pairwise distinct. */
  lemma AddToCartKeepsNamesUnique(cart: seq<CartItem>, p: Product)
    requires UniqueNames(cart)
    ensures UniqueNames(AddToCart(cart, p))
  {
    var r := AddToCart(cart, p);
    if p.name !in Names(cart) {
      forall i, j | 0 <= i < j < |r|
        ensures r[i].product.name != r[j].product.name
      {
        if j == |cart| {
          assert Names(cart)[i] == cart[i].product.name;
        }
      }
    }
  }

  /** Adding keeps every quantity at least one. */
  lemma AddToCartKeepsQuantitiesPositive(cart: seq<CartItem>, p: Product)
    requires QuantitiesPositive(cart)
    ensures QuantitiesPositive(AddToCart(cart, p))
  {
  }

  /** `cartCount` rises by exactly one per add. */
  lemma AddToCartCount(cart: seq<CartItem>, p: Product)
    ensures Count(AddToCart(cart, p)) == Count(cart) + 1
  {
    var i := FindIndex(cart, p.name);
    if i >= 0 {
      var x := cart[i].(quantity := cart[i].quantity + 1);
      assert AddToCart(cart, p) == cart[i := x];
      CountUpdate(cart, i, x);
    } else {
      var r := cart + [CartItem(p, 1)];
      assert AddToCart(cart, p) == r;
      AppendPrefix(cart, CartItem(p, 1));
      assert Count(r) == Count(r[..|cart|]) + 1;
    }
  }

  /** `cartTotal` rises by the price stored in the cart for that name: the
      price of the entry already there, or the added product's own price. */
  lemma AddToCartTotal(cart: seq<CartItem>, p: Product)
    ensures var i := FindIndex(cart, p.name);
      Total(AddToCart(cart, p)) == Total(cart) + (if i >= 0 then cart[i].product.price else p.price)
  {
    var i := FindIndex(cart, p.name);
    if i >= 0 {
      var x := cart[i].(quantity := cart[i].quantity + 1);
      assert AddToCart(cart, p) == cart[i := x];
      TotalUpdate(cart, i, x);
      OneMore(cart[i]);
      var before, stored := LineAmount(cart[i]), cart[i].product.price;
      assert LineAmount(x) == before + stored;
      assert Total(cart[i := x]) == Total(cart) - before + (before + stored);
    } else {
      var y := CartItem(p, 1);
      var r := cart + [y];
      assert AddToCart(cart, p) == r;
      AppendPrefix(cart, y);
      assert r[..|r| - 1] == cart && r[|r| - 1] == y;
      assert Total(r) == Total(cart) + LineAmount(y);
      assert LineAmount(y) == p.price;
    }
  }

  /** Adding never reorders, drops or renames entries: the names of the old
      cart are a prefix of the new one, followed by the product's name only
      when it was not there. */
  lemma AddToCartNames(cart: seq<CartItem>, p: Product)
    ensures Names(AddToCart(cart, p))
         == if p.name in Names(cart) then Names(cart) else Names(cart) + [p.name]
  {
  }

  // ---------------------------------------------------------------------
  // Any sequence of adds, starting from the empty cart

  /** The cart summarises the products added so far: one entry per added
      name, whose quantity is the number of times that name was added and
      whose product is one of those added. */
  predicate Summarises(cart: seq<CartItem>, ps: seq<Product>) {
    && UniqueNames(cart)
    && (forall k :: 0 <= k < |cart| ==> cart[k].quantity == Occurrences(ps, cart[k].product.name))
    && (forall j :: 0 <= j < |ps| ==> ps[j].name in Names(cart))
    && (forall k :: 0 <= k < |cart| ==> cart[k].product in ps)
  }

  lemma OccurrencesSnoc(ps: seq<Product>, p: Product, n: string)
    ensures Occurrences(ps + [p], n) == Occurrences(ps, n) + (if p.name == n then 1 else 0)
  {
    assert (ps + [p])[..|ps|] == ps;
  }

  /** A name that occurs is the name of some product of the sequence. */
  lemma {:induction false} OccursAt(ps: seq<Product>, n: string)
    requires Occurrences(ps, n) > 0
    ensures exists j :: 0 <= j < |ps| && ps[j].name == n
  {
    var front := ps[..|ps| - 1];
    if ps[|ps| - 1].name != n {
      OccursAt(front, n);
      var j :| 0 <= j < |front| && front[j].name == n;
      assert ps[j] == front[j];
    }
  }

  /** One add keeps the quantities counting the added names. */
  lemma AddToCartQuantities(c: seq<CartItem>, ps: seq<Product>, p: Product)
    requires Summarises(c, ps)
    ensures var r := AddToCart(c, p);
      forall k :: 0 <= k < |r| ==> r[k].quantity == Occurrences(ps + [p], r[k].product.name)
  {
    var r := AddToCart(c, p);
    var i := FindIndex(c, p.name);
    forall k | 0 <= k < |r|
      ensures r[k].quantity == Occurrences(ps + [p], r[k].product.name)
    {
      OccurrencesSnoc(ps, p, r[k].product.name);
      if k < |c| {
        if k != i && c[k].product.name == p.name {
          assert false;
        }
      } else if Occurrences(ps, p.name) > 0 {
        OccursAt(ps, p.name);
        assert false;
      }
    }
  }

  /** One add keeps the cart summarising the products added. */
  lemma AddToCartSummarises(c: seq<CartItem>, ps: seq<Product>, p: Product)
    requires Summarises(c, ps)
    ensures Summarises(AddToCart(c, p), ps + [p])
  {
    var r := AddToCart(c, p);
    AddToCartKeepsNamesUnique(c, p);
    AddToCartQuantities(c, ps, p);
    AddToCartNames(c, p);
    forall j | 0 <= j < |ps + [p]|
      ensures (ps + [p])[j].name in Names(r)
    {
      if j < |ps| {
        assert ps[j].name in Names(c);
      }
    }
  }

  /** The cart after adding `ps` in turn to an empty cart summarises `ps`,
      and its count is `|ps|`. */
  lemma {:induction false} AddAllSummarises(ps: seq<Product>)
    ensures Summarises(AddAll([], ps), ps)
    ensures Count(AddAll([], ps)) == |ps|
  {
    if |ps| > 0 {
      var front := ps[..|ps| - 1];
      var p := ps[|ps| - 1];
      assert ps == front + [p];
      AddAllSummarises(front);
      AddToCartSummarises(AddAll([], front), front, p);
      AddToCartCount(AddAll([], front), p);
    }
  }

  /** After any sequence of adds from an empty cart, names are distinct. */
  lemma {:induction false} AddAllNamesUnique(ps: seq<Product>)
    ensures UniqueNames(AddAll([], ps))
  {
    AddAllSummarises(ps);
  }

  /** After any sequence of adds from an empty cart, `cartCount` is the
      number of adds. */
  lemma {:induction false} AddAllCount(ps: seq<Product>)
    ensures Count(AddAll([], ps)) == |ps|
  {
    AddAllSummarises(ps);
  }

  /** After any sequence of adds from an empty cart, each entry's quantity
      is the number of times its name was added. */
  lemma {:induction false} AddAllQuantities(ps: seq<Product>, k: int)
    requires 0 <= k < |AddAll([], ps)|
    ensures AddAll([], ps)[k].quantity == Occurrences(ps, AddAll([], ps)[k].product.name)
  {
    AddAllSummarises(ps);
  }

  /** After any sequence of adds from an empty cart, every quantity is at
      least one. */
  lemma {:induction false} AddAllQuantitiesPositive(ps: seq<Product>)
    ensures QuantitiesPositive(AddAll([], ps))
  {
    var r := AddAll([], ps);
    AddAllSummarises(ps);
    forall k | 0 <= k < |r|
      ensures r[k].quantity >= 1
    {
      var j :| 0 <= j < |ps| && ps[j] == r[k].product;
      OccursFrom(ps, j);
    }
  }

  /** After any sequence of adds from an empty cart, a name has an entry
      iff it was added. */
  lemma {:induction false} AddAllNames(ps: seq<Product>, n: string)
    ensures n in Names(AddAll([], ps)) <==> exists j :: 0 <= j < |ps| && ps[j].name == n
  {
    var r := AddAll([], ps);
    AddAllSummarises(ps);
    if n in Names(r) {
      var k :| 0 <= k < |r| && Names(r)[k] == n;
      var j :| 0 <= j < |ps| && ps[j] == r[k].product;
      assert ps[j].name == n;
    }
  }

  /** The name of a product of the sequence occurs in it. */
  lemma {:induction false} OccursFrom(ps: seq<Product>, j: int)
    requires 0 <= j < |ps|
    ensures Occurrences(ps, ps[j].name) >= 1
  {
    if j < |ps| - 1 {
      assert ps[..|ps| - 1][j] == ps[j];
      OccursFrom(ps[..|ps| - 1], j);
    }
  }

  /** With a consistently priced catalog, the cart total after adding `ps`
      to an empty cart is the sum of the added prices. */
  lemma {:induction false} AddAllTotal(ps: seq<Product>)
    requires ConsistentPrices(ps)
    ensures Total(AddAll([], ps)) == SumPrices(ps)
  {
    if |ps| > 0 {
      var front := ps[..|ps| - 1];
      var p := ps[|ps| - 1];
      var c := AddAll([], front);
      assert AddAll([], ps) == AddToCart(c, p);
      assert SumPrices(ps) == SumPrices(front) + p.price;
      ConsistentPrefix(ps);
      AddAllTotal(front);
      AddToCartTotal(c, p);
      var i := FindIndex(c, p.name);
      if i >= 0 {
        AddAllSummarises(front);
        assert c[i].product in front;
        var j :| 0 <= j < |front| && front[j] == c[i].product;
        assert ps[j] == front[j];
        assert ps[j].price == ps[|ps| - 1].price;
      }
    }
  }

  lemma ConsistentPrefix(ps: seq<Product>)
    requires |ps| > 0 && ConsistentPrices(ps)
    ensures ConsistentPrices(ps[..|ps| - 1])
  {
    var front := ps[..|ps| - 1];
    forall i, j | 0 <= i < |front| && 0 <= j < |front| && front[i].name == front[j].name
      ensures front[i].price == front[j].price
    {
      assert front[i] == ps[i] && front[j] == ps[j];
    }
  }

  /** Adding a product twice to an empty cart gives one entry of quantity 2;
      adding A at 10.00 twice and B at 5.50 once totals 25.50. */
  lemma TwoAddsExample(a: Product, b: Product)
    requires a.name != b.name && a.price == 10.0 && b.price == 5.5
    ensures AddAll([], [a, a]) == [CartItem(a, 2)]
    ensures Total(AddAll([], [a, a, b])) == 25.5
  {
    assert [a][..0] == [];
    assert AddAll([], [a]) == [CartItem(a, 1)];
    assert [a, a][..1] == [a];
    assert AddAll([], [a, a]) == AddToCart([CartItem(a, 1)], a);
    assert FindIndex([CartItem(a, 1)], a.name) == 0;
    assert [a, a, b][..2] == [a, a];
    assert FindIndex([CartItem(a, 2)], b.name) == -1;
    var r := [CartItem(a, 2), CartItem(b, 1)];
    assert AddAll([], [a, a, b]) == r;
    assert r[..1] == [CartItem(a, 2)];
    assert [CartItem(a, 2)][..0] == [];
    assert LineAmount(CartItem(a, 2)) == 20.0;
    assert LineAmount(CartItem(b, 1)) == 5.5;
    assert Total([CartItem(a, 2)]) == 20.0;
  }
}
