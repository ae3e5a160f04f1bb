/**
 * The cart page: the products of the cart's entries, looked up one by one,
 * and the order summary computed from them — the subtotal, the shipping
 * charge with its free-shipping threshold, and the total.
 */
module CartPage {
  import opened Wrappers
  import opened Seqs
  import opened CartStore
  import Products

  /** `{ ...product, quantity: item.quantity }`: a product with the quantity of its cart entry. */
  datatype CartLine = CartLine(product: Products.Product, quantity: int)

  /** The cart entries whose product the catalogue has. */
  function Found(data: seq<Products.Product>): CartItem -> bool {
    (item: CartItem) => FindFirst(data, Products.IdIs(item.productId)).Some?
  }

  /** The line for an entry whose product is known. */
  function LineOf(data: seq<Products.Product>, item: CartItem): CartLine
    requires Found(data)(item)
  {
    CartLine(FindFirst(data, Products.IdIs(item.productId)).value, item.quantity)
  }

  /** One line per found entry, in the entries' order. */
  function LinesOf(data: seq<Products.Product>, items: seq<CartItem>): (r: seq<CartLine>)
    requires forall i :: 0 <= i < |items| ==> Found(data)(items[i])
    ensures |r| == |items|
    ensures forall i :: 0 <= i < |r| ==> r[i] == LineOf(data, items[i])
  {
    seq(|items|, i requires 0 <= i < |items| => LineOf(data, items[i]))
  }

  /**
   * What the loading loop collects: the entries whose product was found,
   * in cart order, each paired with its product; missing products are
   * skipped.
   */
  function Loaded(data: seq<Products.Product>, items: seq<CartItem>): (r: seq<CartLine>)
    ensures |r| == |Filter(items, Found(data))| <= |items|
    ensures forall i :: 0 <= i < |r| ==>
              r[i].product in data && r[i].product.id == Filter(items, Found(data))[i].productId &&
              r[i].quantity == Filter(items, Found(data))[i].quantity
  {
    FilterAllSatisfy(items, Found(data));
    LinesOf(data, Filter(items, Found(data)))
  }

  /** When every product is found, the page shows exactly one line per cart entry, in cart order. */
  lemma LoadedAllFound(data: seq<Products.Product>, items: seq<CartItem>)
    requires forall i :: 0 <= i < |items| ==> Found(data)(items[i])
    ensures |Loaded(data, items)| == |items|
    ensures forall i :: 0 <= i < |items| ==>
              Loaded(data, items)[i].product.id == items[i].productId &&
              Loaded(data, items)[i].quantity == items[i].quantity
  {
    FilterKeepsAll(items, Found(data));
  }

  /** When no product is found, the page has no lines and shows the empty cart. */
  lemma LoadedNoneFound(data: seq<Products.Product>, items: seq<CartItem>)
    requires forall i :: 0 <= i < |items| ==> !Found(data)(items[i])
    ensures Loaded(data, items) == []
  {
    FilterNone(items, Found(data));
  }

  /**
   * The loading loop of the cart page: looks each entry's product up in
   * the repository and appends a line when it is there.
   */
  method LoadProducts(repo: Products.ProductRepository, items: seq<CartItem>) returns (loaded: seq<CartLine>)
    ensures loaded == Loaded(repo.data, items)
  {
    ghost var data := repo.data;
    loaded := [];
    var i := 0;
    while i < |items|
      invariant 0 <= i <= |items|
      invariant loaded == Loaded(data, items[..i])
    {
      var item := items[i];
      var product := repo.FindById(item.productId);
      LoadedNext(data, items, i, product);
      if product.Some? {
        loaded := loaded + [CartLine(product.value, item.quantity)];
      }
      i := i + 1;
    }
    assert items[..i] == items;
  }

  /** The loop's step: the entry at `i` adds the line of the product the lookup returned, if any. */
  lemma LoadedNext(data: seq<Products.Product>, items: seq<CartItem>, i: int, product: Option<Products.Product>)
    requires 0 <= i < |items|
    requires product == FindFirst(data, Products.IdIs(items[i].productId))
    ensures Loaded(data, items[..i + 1]) ==
            Loaded(data, items[..i]) + (if product.Some? then [CartLine(product.value, items[i].quantity)] else [])
  {
    assert items[..i + 1] == items[..i] + [items[i]];
    LoadedStep(data, items[..i], items[i]);
  }

  /** Loading one more entry appends its line exactly when its product is found. */
  lemma LoadedStep(data: seq<Products.Product>, items: seq<CartItem>, item: CartItem)
    ensures Loaded(data, items + [item]) ==
            Loaded(data, items) + (if Found(data)(item) then [LineOf(data, item)] else [])
  {
    FilterAppend(items, [item], Found(data));
    FilterAllSatisfy(items, Found(data));
    var f := Filter(items, Found(data));
    var g := Filter([item], Found(data));
    assert Filter([item], Found(data)) == (if Found(data)(item) then [item] else []) + Filter([], Found(data));
    FilterAllSatisfy(items + [item], Found(data));
    var all := Filter(items + [item], Found(data));
    assert all == f + g;
    var l := Loaded(data, items + [item]);
    var expected := Loaded(data, items) + (if Found(data)(item) then [LineOf(data, item)] else []);
    assert |l| == |expected|;
    forall k | 0 <= k < |l| ensures l[k] == expected[k] {
      if k < |f| {
        assert all[k] == f[k];
      } else {
        assert all[k] == item;
      }
    }
  }

  // ---------------------------------------------------------------------
  // The order summary

  /** The subtotal at which shipping becomes free. */
  const FreeShippingFrom := 10000

  /** The shipping charge below that subtotal. */
  const ShippingCost := 500

  function LineTotal(line: CartLine): int {
    line.product.price * line.quantity
  }

  /** `cartProducts.reduce((sum, item) => sum + item.price * item.quantity, 0)`. */
  function Subtotal(lines: seq<CartLine>): int {
    SumOf(lines, LineTotal)
  }

  /** A line of a positive price and a positive quantity. */
  predicate ValidLine(line: CartLine) {
    line.product.price > 0 && line.quantity > 0
  }

  /** With positive prices and quantities the subtotal is at least the sum of the quantities, so positive for a non-empty cart. */
  lemma {:induction false} SubtotalBounds(lines: seq<CartLine>)
    requires forall i :: 0 <= i < |lines| ==> ValidLine(lines[i])
    ensures Subtotal(lines) >= |lines|
    ensures lines != [] ==> Subtotal(lines) > 0
  {
    if lines != [] {
      SubtotalBounds(lines[1..]);
      MulMonotone(1, lines[0].product.price, lines[0].quantity);
    }
  }

  /**
   * `subtotal >= 10000 ? 0 : 500`, the rule of both the cart page and the
   * checkout page: free from 10000 on, the threshold included, 500 below it.
   */
  function Shipping(subtotal: int): (r: int)
    ensures r == 0 <==> subtotal >= FreeShippingFrom
    ensures r == 0 || r == ShippingCost
  {
    if subtotal >= FreeShippingFrom then 0 else ShippingCost
  }

  /** `subtotal + shipping`: never below the subtotal, and above it by the shipping charge only. */
  function Total(subtotal: int): (r: int)
    ensures r >= subtotal
    ensures r - subtotal == 0 || r - subtotal == ShippingCost
    ensures r == subtotal <==> subtotal >= FreeShippingFrom
  {
    subtotal + Shipping(subtotal)
  }

  /** What the page renders. */
  datatype CartView =
    | Loading
    | EmptyCart
    | Summary(lines: seq<CartLine>, subtotal: int, shipping: int, total: int, freeShippingHint: bool)

  /**
   * The page: a placeholder while loading, the empty-cart view when no
   * line was loaded, otherwise the lines and the summary, with the
   * free-shipping hint shown exactly when shipping is charged.
   */
  function CartPageView(isLoading: bool, lines: seq<CartLine>): (r: CartView)
    ensures isLoading <==> r.Loading?
    ensures !isLoading ==> (r.EmptyCart? <==> lines == [])
    ensures r.Summary? ==> && r.lines == lines && r.subtotal == Subtotal(lines)
                           && r.shipping == Shipping(r.subtotal) && r.total == Total(r.subtotal)
                           && (r.freeShippingHint <==> r.shipping > 0)
                           && (r.freeShippingHint <==> r.subtotal < FreeShippingFrom)
  {
    if isLoading then Loading
    else if lines == [] then EmptyCart
    else
      var subtotal := Subtotal(lines);
      var shipping := Shipping(subtotal);
      Summary(lines, subtotal, shipping, subtotal + shipping, shipping > 0)
  }
}
