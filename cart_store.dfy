/**
 * The client's cart store: a list of entries, one per product, each with
 * a quantity and the time it was added. The actions replace the list;
 * persistence to the browser is not part of the model.
 */
module CartStore {
  import opened Wrappers
  import opened Seqs

  /** An entry of the cart; `addedAt` is the time the product was first added. */
  datatype CartItem = CartItem(productId: string, quantity: int, addedAt: string)

  /** `cartItemSchema`: a positive quantity. */
  predicate ValidItem(item: CartItem) {
    item.quantity > 0
  }

  /** The store's invariant: no two entries for the same product. */
  predicate UniqueProducts(items: seq<CartItem>) {
    forall i, j :: 0 <= i < j < |items| ==> items[i].productId != items[j].productId
  }

  function ProductIs(productId: string): CartItem -> bool {
    (item: CartItem) => item.productId == productId
  }

  function ProductIsNot(productId: string): CartItem -> bool {
    (item: CartItem) => item.productId != productId
  }

  function QuantityOf(item: CartItem): int {
    item.quantity
  }

  /**
   * `items.find(item => item.productId === productId)?.quantity || 0`: the
   * quantity of the first entry for the product, or 0 when there is none
   * (a quantity of 0 gives 0 either way).
   */
  function ItemQuantity(items: seq<CartItem>, productId: string): (r: int)
    ensures (forall i :: 0 <= i < |items| ==> items[i].productId != productId) ==> r == 0
    ensures forall i :: 0 <= i < |items| && items[i].productId == productId &&
                        (forall j :: 0 <= j < i ==> items[j].productId != productId) ==>
                        r == items[i].quantity
  {
    match FindFirst(items, ProductIs(productId))
    case None => 0
    case Some(item) => item.quantity
  }

  /** In a cart with one entry per product, the quantity is that of the product's entry. */
  lemma QuantityOfEntry(items: seq<CartItem>, x: CartItem)
    requires UniqueProducts(items)
    requires x in items
    ensures ItemQuantity(items, x.productId) == x.quantity
  {
    var i :| 0 <= i < |items| && items[i] == x;
    assert forall j :: 0 <= j < i ==> items[j].productId != x.productId;
  }

  /** `items.reduce((total, item) => total + item.quantity, 0)`. */
  function TotalQuantity(items: seq<CartItem>): int {
    SumOf(items, QuantityOf)
  }

  /** With positive quantities the total is at least the number of entries, and at least any entry's quantity. */
  lemma {:induction false} TotalBounds(items: seq<CartItem>)
    requires forall i :: 0 <= i < |items| ==> ValidItem(items[i])
    ensures TotalQuantity(items) >= |items|
    ensures forall i :: 0 <= i < |items| ==> TotalQuantity(items) >= items[i].quantity
  {
    if items != [] {
      TotalBounds(items[1..]);
      forall i | 0 <= i < |items| ensures TotalQuantity(items) >= items[i].quantity {
        if i > 0 {
          assert items[1..][i - 1] == items[i];
        }
      }
    }
  }

  // ---------------------------------------------------------------------
  // The new lists the actions compute

  /** `quantity => quantity + q`: what `addItem` does to an existing entry. */
  function Plus(q: int): int -> int {
    (n: int) => n + q
  }

  /** `quantity => q`: what `updateQuantity` does to an existing entry. */
  function Becomes(q: int): int -> int {
    (n: int) => q
  }

  /**
   * `items.map(item => item.productId === productId ? { ...item, quantity: f(item.quantity) } : item)`:
   * the product's entries get a new quantity, every other entry and every
   * position stays as it is.
   */
  function Requantified(items: seq<CartItem>, productId: string, f: int -> int): (r: seq<CartItem>)
    ensures |r| == |items|
    ensures forall i :: 0 <= i < |r| ==> r[i].productId == items[i].productId && r[i].addedAt == items[i].addedAt
    ensures forall i :: 0 <= i < |r| && items[i].productId != productId ==> r[i] == items[i]
    ensures forall i :: 0 <= i < |r| && items[i].productId == productId ==> r[i].quantity == f(items[i].quantity)
  {
    seq(|items|, i requires 0 <= i < |items| =>
          if items[i].productId == productId then items[i].(quantity := f(items[i].quantity)) else items[i])
  }

  /** The list after `addItem(productId, q)`: the entry raised by q, or a new entry at the end. */
  function Added(items: seq<CartItem>, productId: string, q: int, now: string): seq<CartItem> {
    if FindFirst(items, ProductIs(productId)).Some? then Requantified(items, productId, Plus(q))
    else items + [CartItem(productId, q, now)]
  }

  /** The list after `removeItem(productId)`. */
  function Removed(items: seq<CartItem>, productId: string): (r: seq<CartItem>)
    ensures forall x :: x in r <==> x in items && x.productId != productId
    ensures |r| <= |items|
  {
    FilterContains(items, ProductIsNot(productId));
    Filter(items, ProductIsNot(productId))
  }

  /** The list after `updateQuantity(productId, q)`: removal for q <= 0, the new quantity otherwise. */
  function Updated(items: seq<CartItem>, productId: string, q: int): seq<CartItem> {
    if q <= 0 then Removed(items, productId) else Requantified(items, productId, Becomes(q))
  }

  // ---------------------------------------------------------------------
  // What the actions preserve and what they change

  /** Entries with the same products in the same places. */
  predicate SameProducts(a: seq<CartItem>, b: seq<CartItem>) {
    |a| == |b| && forall i :: 0 <= i < |a| ==> a[i].productId == b[i].productId
  }

  lemma SameProductsUnique(a: seq<CartItem>, b: seq<CartItem>)
    requires SameProducts(a, b) && UniqueProducts(a)
    ensures UniqueProducts(b)
  {
  }

  /**
   * Requantifying in a cart with one entry per product: the entry, if any,
   * is the only one that changes; its quantity becomes `f` of the old one
   * and the total moves by the difference; other products keep their
   * quantities.
   */
  lemma RequantifiedSpec(items: seq<CartItem>, productId: string, f: int -> int)
    requires UniqueProducts(items)
    ensures var r := Requantified(items, productId, f);
            && SameProducts(items, r) && UniqueProducts(r)
            && (FindFirst(items, ProductIs(productId)).None? ==> r == items)
            && (FindFirst(items, ProductIs(productId)).Some? ==>
                  ItemQuantity(r, productId) == f(ItemQuantity(items, productId)) &&
                  TotalQuantity(r) == TotalQuantity(items) - ItemQuantity(items, productId) +
                                      f(ItemQuantity(items, productId)))
            && (forall other :: other != productId ==> ItemQuantity(r, other) == ItemQuantity(items, other))
  {
    var r := Requantified(items, productId, f);
    SameProductsUnique(items, r);
    var i := FindIndex(items, ProductIs(productId));
    if i == -1 {
      assert r == items;
    } else {
      var x := items[i].(quantity := f(items[i].quantity));
      assert r == items[i := x];
      SumOfUpdate(items, i, x, QuantityOf);
      QuantityOfEntry(items, items[i]);
      QuantityOfEntry(r, r[i]);
    }
    forall other | other != productId ensures ItemQuantity(r, other) == ItemQuantity(items, other) {
      var k := FindIndex(items, ProductIs(other));
      if k == -1 {
        assert forall j :: 0 <= j < |r| ==> r[j].productId != other;
      } else {
        QuantityOfEntry(items, items[k]);
        QuantityOfEntry(r, r[k]);
      }
    }
  }

  /**
   * `addItem` in a cart with one entry per product keeps it so; the
   * product's quantity goes up by q (from 0 when it was absent), the
   * total by q, other products are unaffected, and a new entry, if any,
   * is the last one.
   */
  lemma AddedSpec(items: seq<CartItem>, productId: string, q: int, now: string)
    requires UniqueProducts(items)
    ensures var r := Added(items, productId, q, now);
            && UniqueProducts(r)
            && ItemQuantity(r, productId) == ItemQuantity(items, productId) + q
            && TotalQuantity(r) == TotalQuantity(items) + q
            && (forall other :: other != productId ==> ItemQuantity(r, other) == ItemQuantity(items, other))
            && (FindFirst(items, ProductIs(productId)).Some? ==> SameProducts(items, r))
            && (FindFirst(items, ProductIs(productId)).None? ==> r == items + [CartItem(productId, q, now)])
  {
    var r := Added(items, productId, q, now);
    if FindFirst(items, ProductIs(productId)).Some? {
      RequantifiedSpec(items, productId, Plus(q));
    } else {
      var entry := CartItem(productId, q, now);
      assert r == items + [entry];
      assert r[|items|] == entry;
      SumOfAppend(items, [entry], QuantityOf);
      assert SumOf([entry], QuantityOf) == q;
      QuantityOfEntry(r, entry);
      forall other | other != productId ensures ItemQuantity(r, other) == ItemQuantity(items, other) {
        var k := FindIndex(items, ProductIs(other));
        if k == -1 {
          assert forall j :: 0 <= j < |r| ==> r[j].productId != other;
        } else {
          QuantityOfEntry(items, items[k]);
          QuantityOfEntry(r, r[k]);
        }
      }
    }
  }

  lemma {:induction false} FilterKeepsUnique(items: seq<CartItem>, p: CartItem -> bool)
    requires UniqueProducts(items)
    ensures UniqueProducts(Filter(items, p))
  {
    if items != [] {
      FilterKeepsUnique(items[1..], p);
      FilterContains(items[1..], p);
      var rest := Filter(items[1..], p);
      forall j | 0 <= j < |rest| ensures rest[j].productId != items[0].productId {
        assert rest[j] in items[1..];
      }
    }
  }

  /** Removing the product whose only entry sits at `i`: the entries before and after it, and its quantity off the total. */
  lemma RemovedAt(items: seq<CartItem>, productId: string, i: int)
    requires UniqueProducts(items)
    requires 0 <= i < |items| && items[i].productId == productId
    ensures Removed(items, productId) == items[..i] + items[i + 1..]
    ensures TotalQuantity(Removed(items, productId)) == TotalQuantity(items) - items[i].quantity
  {
    var p := ProductIsNot(productId);
    var before, after := items[..i], items[i + 1..];
    assert items == before + [items[i]] + after;
    FilterKeepsAll(before, p);
    FilterKeepsAll(after, p);
    FilterAppend(before + [items[i]], after, p);
    FilterAppend(before, [items[i]], p);
    assert Filter([items[i]], p) == [];
    SumOfAppend(before + [items[i]], after, QuantityOf);
    SumOfAppend(before, [items[i]], QuantityOf);
    SumOfAppend(before, after, QuantityOf);
    assert SumOf([items[i]], QuantityOf) == items[i].quantity;
  }

  /** Removing one product leaves the quantity of every other product as it was. */
  lemma RemovedKeepsOthers(items: seq<CartItem>, productId: string, other: string)
    requires UniqueProducts(items) && UniqueProducts(Removed(items, productId))
    requires other != productId
    ensures ItemQuantity(Removed(items, productId), other) == ItemQuantity(items, other)
  {
    var r := Removed(items, productId);
    var k := FindIndex(items, ProductIs(other));
    if k == -1 {
      forall j | 0 <= j < |r| ensures r[j].productId != other {
        assert r[j] in r;
      }
    } else {
      assert items[k] in r;
      QuantityOfEntry(items, items[k]);
      QuantityOfEntry(r, items[k]);
    }
  }

  /**
   * `removeItem` keeps one entry per product and the others' order, leaves
   * the product with quantity 0, takes its quantity off the total, and
   * leaves the other products' quantities as they were.
   */
  lemma RemovedSpec(items: seq<CartItem>, productId: string)
    requires UniqueProducts(items)
    ensures var r := Removed(items, productId);
            && UniqueProducts(r)
            && ItemQuantity(r, productId) == 0
            && TotalQuantity(r) == TotalQuantity(items) - ItemQuantity(items, productId)
            && (forall other :: other != productId ==> ItemQuantity(r, other) == ItemQuantity(items, other))
  {
    var r := Removed(items, productId);
    FilterKeepsUnique(items, ProductIsNot(productId));
    var i := FindIndex(items, ProductIs(productId));
    if i == -1 {
      FilterKeepsAll(items, ProductIsNot(productId));
    } else {
      RemovedAt(items, productId, i);
      QuantityOfEntry(items, items[i]);
    }
    forall other | other != productId ensures ItemQuantity(r, other) == ItemQuantity(items, other) {
      RemovedKeepsOthers(items, productId, other);
    }
  }

  /**
   * `updateQuantity(productId, q)` with q > 0 keeps the entries and their
   * places (no entry is added for an absent product), and the product's
   * quantity becomes q when it is in the cart.
   */
  lemma UpdatedSpec(items: seq<CartItem>, productId: string, q: int)
    requires UniqueProducts(items)
    requires q > 0
    ensures var r := Updated(items, productId, q);
            && UniqueProducts(r) && SameProducts(items, r)
            && (FindFirst(items, ProductIs(productId)).Some? ==> ItemQuantity(r, productId) == q)
            && (FindFirst(items, ProductIs(productId)).None? ==> r == items)
            && (forall other :: other != productId ==> ItemQuantity(r, other) == ItemQuantity(items, other))
  {
    RequantifiedSpec(items, productId, Becomes(q));
  }

  // ---------------------------------------------------------------------
  // The store

  class Cart {
    var items: seq<CartItem>

    /** One entry per product. */
    ghost predicate Valid()
      reads this
    {
      UniqueProducts(items)
    }

    /** The empty cart. */
    constructor ()
      ensures items == [] && Valid()
    {
      items := [];
    }

    /**
     * `addItem(productId, quantity = 1)`: raises the product's entry by the
     * quantity, or appends an entry stamped with the clock reading `now`.
     */
    method AddItem(productId: string, quantity: Option<int>, now: string)
      modifies this
      ensures items == Added(old(items), productId, quantity.GetOr(1), now)
      ensures old(Valid()) ==> Valid()
    {
      var q := quantity.GetOr(1);
      var existing := FindFirst(items, ProductIs(productId));
      if existing.Some? {
        items := Requantified(items, productId, Plus(q));
      } else {
        items := items + [CartItem(productId, q, now)];
      }
      if old(Valid()) {
        AddedSpec(old(items), productId, q, now);
      }
    }

    /** `removeItem`: drops the product's entries. */
    method RemoveItem(productId: string)
      modifies this
      ensures items == Removed(old(items), productId)
      ensures old(Valid()) ==> Valid()
    {
      items := Removed(items, productId);
      if old(Valid()) {
        RemovedSpec(old(items), productId);
      }
    }

    /** `updateQuantity`: a quantity of zero or less removes the product, any other sets it. */
    method UpdateQuantity(productId: string, quantity: int)
      modifies this
      ensures quantity <= 0 ==> items == Removed(old(items), productId)
      ensures items == Updated(old(items), productId, quantity)
      ensures old(Valid()) ==> Valid()
    {
      if quantity <= 0 {
        RemoveItem(productId);
        return;
      }
      items := Requantified(items, productId, Becomes(quantity));
      if old(Valid()) {
        UpdatedSpec(old(items), productId, quantity);
      }
    }

    /** `clearCart`. */
    method ClearCart()
      modifies this
      ensures items == [] && Valid()
    {
      items := [];
    }

    /** `getItemQuantity`. */
    method GetItemQuantity(productId: string) returns (r: int)
      ensures r == ItemQuantity(items, productId)
      ensures Valid() ==> forall x :: x in items && x.productId == productId ==> r == x.quantity
      ensures (forall x :: x in items ==> x.productId != productId) ==> r == 0
    {
      var found := FindFirst(items, ProductIs(productId));
      r := if found.Some? then found.value.quantity else 0;
      forall x | Valid() && x in items && x.productId == productId ensures r == x.quantity {
        QuantityOfEntry(items, x);
      }
    }

    /** `getTotalQuantity`. */
    method GetTotalQuantity() returns (r: int)
      ensures r == TotalQuantity(items)
      ensures (forall x :: x in items ==> ValidItem(x)) ==> r >= |items|
    {
      r := SumOf(items, QuantityOf);
      if forall x :: x in items ==> ValidItem(x) {
        TotalBounds(items);
      }
    }
  }
}
