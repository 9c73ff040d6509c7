/**
 * The cart store of the client (frontend/src/context/CartContext.tsx): an ordered
 * list of lines plus the two derived totals, which every mutation recomputes
 * from the lines. Adding merges on the key (product id, size, colour); removing
 * and changing a quantity match on the product id alone, across all variants.
 */
module CartContext {
  import opened Types
  import opened Wrappers

  // ---------------------------------------------------------------- totals

  /**
   * `items.reduce((sum, item) => sum + item.quantity, 0)`: the quantities summed.
   * The sums are exact, so the direction of the fold does not matter.
   */
  function TotalItems(items: seq<CartItem>): int {
    if items == [] then 0 else items[0].quantity + TotalItems(items[1..])
  }

  /** What one line costs: price times quantity (also the subtotal the cart page shows per line). */
  function LineTotal(item: CartItem): real {
    item.product.price * item.quantity as real
  }

  /** `items.reduce((sum, item) => sum + item.product.price * item.quantity, 0)`: the line totals summed. */
  function TotalPrice(items: seq<CartItem>): real {
    if items == [] then 0.0 else LineTotal(items[0]) + TotalPrice(items[1..])
  }

  /** Both totals are sums: they split over concatenation. */
  lemma {:induction false} TotalsConcat(a: seq<CartItem>, b: seq<CartItem>)
    ensures TotalItems(a + b) == TotalItems(a) + TotalItems(b)
    ensures TotalPrice(a + b) == TotalPrice(a) + TotalPrice(b)
  {
    if a == [] {
      assert a + b == b;
    } else {
      assert (a + b)[0] == a[0];
      assert (a + b)[1..] == a[1..] + b;
      TotalsConcat(a[1..], b);
    }
  }

  lemma TotalsCons(x: CartItem, rest: seq<CartItem>)
    ensures TotalItems([x] + rest) == x.quantity + TotalItems(rest)
    ensures TotalPrice([x] + rest) == LineTotal(x) + TotalPrice(rest)
  {
    assert ([x] + rest)[1..] == rest;
  }

  // ---------------------------------------------------------------- keys

  /** No two lines share a (product id, size, colour) key. */
  predicate UniqueKeys(items: seq<CartItem>) {
    forall i, j :: 0 <= i < j < |items| ==> KeyOf(items[i]) != KeyOf(items[j])
  }

  /** Every line holds at least one unit. */
  predicate PositiveQuantities(items: seq<CartItem>) {
    forall i :: 0 <= i < |items| ==> items[i].quantity >= 1
  }

  /** `findIndex` on the merge key: the first line with that key, or -1. */
  function FindLine(items: seq<CartItem>, key: LineKey): (r: int)
    ensures -1 <= r < |items|
    ensures r >= 0 ==> KeyOf(items[r]) == key
    ensures forall j :: 0 <= j < |items| && (r < 0 || j < r) ==> KeyOf(items[j]) != key
  {
    if items == [] then -1
    else if KeyOf(items[0]) == key then 0
    else
      var k := FindLine(items[1..], key);
      if k < 0 then -1 else k + 1
  }

  // ---------------------------------------------------------------- addToCart

  /**
   * Reference definition of adding `line`: the first line with the same key has
   * its quantity raised by `line.quantity` (keeping its own product snapshot);
   * without such a line, `line` goes at the end.
   */
  function Merged(items: seq<CartItem>, line: CartItem): seq<CartItem> {
    if items == [] then [line]
    else if KeyOf(items[0]) == KeyOf(line) then
      [items[0].(quantity := items[0].quantity + line.quantity)] + items[1..]
    else [items[0]] + Merged(items[1..], line)
  }

  /** The reducer's way (find the index, bump it in a copy, or append) computes `Merged`. */
  lemma {:induction false} MergedByIndex(items: seq<CartItem>, line: CartItem)
    ensures var i := FindLine(items, KeyOf(line));
      Merged(items, line) ==
        if i >= 0 then items[i := items[i].(quantity := items[i].quantity + line.quantity)]
        else items + [line]
  {
    if items != [] && KeyOf(items[0]) != KeyOf(line) {
      MergedByIndex(items[1..], line);
    }
  }

  /** Adding an existing key bumps exactly that line; the length and every other line stay. */
  lemma {:induction false} MergeExisting(items: seq<CartItem>, line: CartItem, i: int)
    requires UniqueKeys(items)
    requires 0 <= i < |items| && KeyOf(items[i]) == KeyOf(line)
    ensures var r := Merged(items, line);
      && |r| == |items|
      && r[i] == items[i].(quantity := items[i].quantity + line.quantity)
      && forall j :: 0 <= j < |items| && j != i ==> r[j] == items[j]
  {
    MergedByIndex(items, line);
    assert FindLine(items, KeyOf(line)) == i;
  }

  /** Adding a new key appends one line and leaves the existing lines in order. */
  lemma {:induction false} MergeNew(items: seq<CartItem>, line: CartItem)
    requires forall j :: 0 <= j < |items| ==> KeyOf(items[j]) != KeyOf(line)
    ensures Merged(items, line) == items + [line]
  {
    MergedByIndex(items, line);
  }

  lemma {:induction false} MergePreservesUnique(items: seq<CartItem>, line: CartItem)
    requires UniqueKeys(items)
    ensures UniqueKeys(Merged(items, line))
  {
    MergedByIndex(items, line);
    var i := FindLine(items, KeyOf(line));
    var r := Merged(items, line);
    if i >= 0 {
      assert forall j :: 0 <= j < |r| ==> KeyOf(r[j]) == KeyOf(items[j]);
    }
  }

  lemma {:induction false} MergePreservesPositive(items: seq<CartItem>, line: CartItem)
    requires PositiveQuantities(items) && line.quantity >= 1
    ensures PositiveQuantities(Merged(items, line))
  {
    MergedByIndex(items, line);
  }

  /** Raising a line's quantity by `q` raises its cost by `q` units of its own price `p`. */
  lemma BumpLineTotal(x: CartItem, q: int, p: real)
    requires p == x.product.price
    ensures LineTotal(x.(quantity := x.quantity + q)) == LineTotal(x) + p * q as real
  {
    assert (x.quantity + q) as real == x.quantity as real + q as real;
  }

  /** The unit price the added quantity is charged at: the earlier snapshot when the key was already present. */
  function MergePrice(items: seq<CartItem>, line: CartItem): real {
    var i := FindLine(items, KeyOf(line));
    if i >= 0 then items[i].product.price else line.product.price
  }

  /** The item count grows by exactly the added quantity. */
  lemma {:induction false} MergeTotalItems(items: seq<CartItem>, line: CartItem)
    ensures TotalItems(Merged(items, line)) == TotalItems(items) + line.quantity
  {
    if items == [] {
      TotalsCons(line, []);
    } else {
      assert [items[0]] + items[1..] == items;
      TotalsCons(items[0], items[1..]);
      if KeyOf(items[0]) == KeyOf(line) {
        TotalsCons(items[0].(quantity := items[0].quantity + line.quantity), items[1..]);
      } else {
        MergeTotalItems(items[1..], line);
        TotalsCons(items[0], Merged(items[1..], line));
      }
    }
  }

  /**
   * The price grows by the added quantity times the price of the line that
   * received it, so a re-added product is charged at the price it had when first added.
   */
  lemma {:induction false} MergeTotalPrice(items: seq<CartItem>, line: CartItem)
    ensures TotalPrice(Merged(items, line)) == TotalPrice(items) + MergePrice(items, line) * line.quantity as real
  {
    if items == [] {
      TotalsCons(line, []);
    } else if KeyOf(items[0]) == KeyOf(line) {
      assert FindLine(items, KeyOf(line)) == 0;
      MergeAtHeadPrice(items, line, MergePrice(items, line));
    } else {
      MergeTotalPrice(items[1..], line);
      MergeBehindHeadPrice(items, line);
    }
  }

  /** The step of MergeTotalPrice past a first line without the key, from the claim for the rest of the cart. */
  lemma {:induction false} MergeBehindHeadPrice(items: seq<CartItem>, line: CartItem)
    requires items != [] && KeyOf(items[0]) != KeyOf(line)
    requires TotalPrice(Merged(items[1..], line)) == TotalPrice(items[1..]) + MergePrice(items[1..], line) * line.quantity as real
    ensures TotalPrice(Merged(items, line)) == TotalPrice(items) + MergePrice(items, line) * line.quantity as real
  {
    MergePriceSkipsHead(items, line);
    assert MergePrice(items, line) * line.quantity as real == MergePrice(items[1..], line) * line.quantity as real;
    MergePastHeadPrice(items, line, MergePrice(items[1..], line) * line.quantity as real);
  }

  /** The first line has the key: it is bumped, and grows by the added units at its price `p`. */
  lemma {:induction false} MergeAtHeadPrice(items: seq<CartItem>, line: CartItem, p: real)
    requires items != [] && KeyOf(items[0]) == KeyOf(line) && p == items[0].product.price
    ensures TotalPrice(Merged(items, line)) == TotalPrice(items) + p * line.quantity as real
  {
    var x, rest := items[0], items[1..];
    var bumped := x.(quantity := x.quantity + line.quantity);
    assert Merged(items, line) == [bumped] + rest;
    TotalsCons(bumped, rest);
    BumpLineTotal(x, line.quantity, p);
  }

  /** The first line lacks the key: the cart grows by whatever the rest of it grows by. */
  lemma {:induction false} MergePastHeadPrice(items: seq<CartItem>, line: CartItem, increase: real)
    requires items != [] && KeyOf(items[0]) != KeyOf(line)
    requires TotalPrice(Merged(items[1..], line)) == TotalPrice(items[1..]) + increase
    ensures TotalPrice(Merged(items, line)) == TotalPrice(items) + increase
  {
    var x, rest := items[0], items[1..];
    var m := Merged(rest, line);
    assert Merged(items, line) == [x] + m;
    TotalsCons(x, m);
  }

  /** Past a first line without the key, the price charged is the one the rest of the cart decides. */
  lemma {:induction false} MergePriceSkipsHead(items: seq<CartItem>, line: CartItem)
    requires items != [] && KeyOf(items[0]) != KeyOf(line)
    ensures MergePrice(items, line) == MergePrice(items[1..], line)
  {
    var k := FindLine(items[1..], KeyOf(line));
    if k >= 0 { assert items[k + 1] == items[1..][k]; }
  }

  /** Adding the same key twice to a cart without it leaves one line holding both quantities. */
  lemma AddTwiceSumsQuantities(items: seq<CartItem>, first: CartItem, second: CartItem)
    requires forall j :: 0 <= j < |items| ==> KeyOf(items[j]) != KeyOf(first)
    requires KeyOf(second) == KeyOf(first)
    ensures Merged(Merged(items, first), second)
         == items + [first.(quantity := first.quantity + second.quantity)]
  {
    MergeNew(items, first);
    MergedByIndex(items + [first], second);
    assert FindLine(items + [first], KeyOf(second)) == |items|;
  }

  // ---------------------------------------------------------------- removeFromCart

  /** `items.filter(item => item.product._id !== productId)`. */
  function WithoutProduct(items: seq<CartItem>, productId: string): (r: seq<CartItem>)
    ensures |r| <= |items|
    ensures forall x :: x in r ==> x in items && x.product.id != productId
  {
    if items == [] then []
    else if items[0].product.id == productId then WithoutProduct(items[1..], productId)
    else [items[0]] + WithoutProduct(items[1..], productId)
  }

  /** Filtering splits over concatenation, so the kept lines keep their relative order. */
  lemma {:induction false} WithoutProductConcat(a: seq<CartItem>, b: seq<CartItem>, productId: string)
    ensures WithoutProduct(a + b, productId) == WithoutProduct(a, productId) + WithoutProduct(b, productId)
  {
    if a == [] {
      assert a + b == b;
    } else {
      assert (a + b)[0] == a[0];
      assert (a + b)[1..] == a[1..] + b;
      WithoutProductConcat(a[1..], b, productId);
    }
  }

  /** A line of another product survives the removal. */
  lemma {:induction false} WithoutProductKeeps(items: seq<CartItem>, productId: string, x: CartItem)
    requires x in items && x.product.id != productId
    ensures x in WithoutProduct(items, productId)
  {
    if items[0] != x {
      WithoutProductKeeps(items[1..], productId, x);
    }
  }

  /** Without any line of that product the cart is unchanged. */
  lemma {:induction false} WithoutAbsentProduct(items: seq<CartItem>, productId: string)
    requires forall j :: 0 <= j < |items| ==> items[j].product.id != productId
    ensures WithoutProduct(items, productId) == items
  {
    if items != [] {
      WithoutAbsentProduct(items[1..], productId);
    }
  }

  lemma {:induction false} WithoutProductPreservesUnique(items: seq<CartItem>, productId: string)
    requires UniqueKeys(items)
    ensures UniqueKeys(WithoutProduct(items, productId))
  {
    if items != [] {
      var rest := WithoutProduct(items[1..], productId);
      WithoutProductPreservesUnique(items[1..], productId);
      if items[0].product.id != productId {
        var r := [items[0]] + rest;
        forall i, j | 0 <= i < j < |r| ensures KeyOf(r[i]) != KeyOf(r[j]) {
          if i == 0 {
            assert r[j] in items[1..];
          }
        }
      }
    }
  }

  lemma {:induction false} WithoutProductPreservesPositive(items: seq<CartItem>, productId: string)
    requires PositiveQuantities(items)
    ensures PositiveQuantities(WithoutProduct(items, productId))
  {
    var r := WithoutProduct(items, productId);
    forall i | 0 <= i < |r| ensures r[i].quantity >= 1 {
      assert r[i] in items;
    }
  }

  // ---------------------------------------------------------------- updateQuantity

  /** `items.map(item => item.product._id === productId ? { ...item, quantity } : item)`. */
  function WithQuantity(items: seq<CartItem>, productId: string, quantity: int): (r: seq<CartItem>)
    ensures |r| == |items|
    ensures forall i :: 0 <= i < |items| ==>
      r[i] == if items[i].product.id == productId then items[i].(quantity := quantity) else items[i]
  {
    if items == [] then []
    else
      var head := if items[0].product.id == productId then items[0].(quantity := quantity) else items[0];
      [head] + WithQuantity(items[1..], productId, quantity)
  }

  /** What `updateQuantity` leaves: a quantity of zero or less removes the product, otherwise it is set. */
  function QuantityUpdated(items: seq<CartItem>, productId: string, quantity: int): seq<CartItem> {
    if quantity <= 0 then WithoutProduct(items, productId) else WithQuantity(items, productId, quantity)
  }

  lemma UpdatePreservesUnique(items: seq<CartItem>, productId: string, quantity: int)
    requires UniqueKeys(items)
    ensures UniqueKeys(QuantityUpdated(items, productId, quantity))
  {
    if quantity <= 0 {
      WithoutProductPreservesUnique(items, productId);
    }
  }

  /** Whatever quantity is asked for, no line is left with fewer than one unit. */
  lemma UpdatePreservesPositive(items: seq<CartItem>, productId: string, quantity: int)
    requires PositiveQuantities(items)
    ensures PositiveQuantities(QuantityUpdated(items, productId, quantity))
  {
    if quantity <= 0 {
      WithoutProductPreservesPositive(items, productId);
    }
  }

  /** Number of lines of one product. */
  function LinesOf(items: seq<CartItem>, productId: string): nat {
    if items == [] then 0
    else (if items[0].product.id == productId then 1 else 0) + LinesOf(items[1..], productId)
  }

  /** `quantity` once for every line of the product: `quantity * LinesOf(items, productId)`. */
  function RepeatedQuantity(items: seq<CartItem>, productId: string, quantity: int): (r: int)
    ensures r == quantity * LinesOf(items, productId)
  {
    if items == [] then 0
    else
      var rest := RepeatedQuantity(items[1..], productId, quantity);
      if items[0].product.id == productId then quantity + rest else rest
  }

  /** Setting a quantity gives every line of the product that quantity in the item count. */
  lemma {:induction false} WithQuantityTotalItems(items: seq<CartItem>, productId: string, quantity: int)
    ensures TotalItems(WithQuantity(items, productId, quantity))
         == TotalItems(WithoutProduct(items, productId)) + RepeatedQuantity(items, productId, quantity)
  {
    if items != [] {
      var rest := items[1..];
      var restSet := WithQuantity(rest, productId, quantity);
      var restKept := WithoutProduct(rest, productId);
      WithQuantityTotalItems(rest, productId, quantity);
      if items[0].product.id == productId {
        var head := items[0].(quantity := quantity);
        assert WithQuantity(items, productId, quantity) == [head] + restSet;
        TotalsCons(head, restSet);
      } else {
        assert WithQuantity(items, productId, quantity) == [items[0]] + restSet;
        TotalsCons(items[0], restSet);
        TotalsCons(items[0], restKept);
      }
    }
  }

  // ---------------------------------------------------------------- isInCart

  /** `items.some(item => item.product._id === productId)`. */
  function HasProduct(items: seq<CartItem>, productId: string): (b: bool)
    ensures b <==> exists i :: 0 <= i < |items| && items[i].product.id == productId
  {
    if items == [] then false
    else items[0].product.id == productId || HasProduct(items[1..], productId)
  }

  /** After a removal the product is no longer in the cart. */
  lemma RemovedProductAbsent(items: seq<CartItem>, productId: string)
    ensures !HasProduct(WithoutProduct(items, productId), productId)
  {
    var r := WithoutProduct(items, productId);
    assert forall i :: 0 <= i < |r| ==> r[i] in r;
  }

  // ---------------------------------------------------------------- the store

  /** The persisted form `{items, totalItems, totalPrice}` as JSON.parse returns it. */
  datatype CartSnapshot = CartSnapshot(items: seq<CartItem>, totalItems: int, totalPrice: real)

  /**
   * The `cart` state of CartProvider. Each mutation replaces the whole state and
   * recomputes the totals, so `Valid()` (totals agree with the lines) holds after
   * every mutation whatever held before.
   */
  class CartStore {
    var items: seq<CartItem>
    var totalItems: int
    var totalPrice: real

    ghost predicate Valid()
      reads this
    {
      totalItems == TotalItems(items) && totalPrice == TotalPrice(items)
    }

    /** The initial state: no lines, zero totals. */
    constructor ()
      ensures Valid()
      ensures items == [] && totalItems == 0 && totalPrice == 0.0
    {
      items, totalItems, totalPrice := [], 0, 0.0;
    }

    /**
     * The mount effect: a parsed snapshot replaces the state as it is (its totals
     * are trusted, not recomputed); a missing or unparsable one keeps the state.
     */
    method Restore(saved: Option<CartSnapshot>)
      modifies this
      ensures saved.None? ==> items == old(items) && totalItems == old(totalItems) && totalPrice == old(totalPrice)
      ensures saved.Some? ==>
        items == saved.value.items && totalItems == saved.value.totalItems && totalPrice == saved.value.totalPrice
    {
      if saved.Some? {
        items, totalItems, totalPrice := saved.value.items, saved.value.totalItems, saved.value.totalPrice;
      }
    }

    method AddToCart(product: Product, quantity: int, size: string, color: string)
      modifies this
      ensures Valid()
      ensures items == Merged(old(items), CartItem(product, quantity, size, color))
      ensures old(UniqueKeys(items)) ==> UniqueKeys(items)
    {
      var line := CartItem(product, quantity, size, color);
      var existingItemIndex := FindLine(items, LineKey(product.id, size, color));
      var newItems := items;
      if existingItemIndex > -1 {
        newItems := newItems[existingItemIndex :=
          newItems[existingItemIndex].(quantity := newItems[existingItemIndex].quantity + quantity)];
      } else {
        newItems := newItems + [line];
      }
      MergedByIndex(items, line);
      if UniqueKeys(items) {
        MergePreservesUnique(items, line);
      }
      items, totalItems, totalPrice := newItems, TotalItems(newItems), TotalPrice(newItems);
    }

    method RemoveFromCart(productId: string)
      modifies this
      ensures Valid()
      ensures items == WithoutProduct(old(items), productId)
      ensures old(UniqueKeys(items)) ==> UniqueKeys(items)
    {
      var newItems := WithoutProduct(items, productId);
      if UniqueKeys(items) {
        WithoutProductPreservesUnique(items, productId);
      }
      items, totalItems, totalPrice := newItems, TotalItems(newItems), TotalPrice(newItems);
    }

    method UpdateQuantity(productId: string, quantity: int)
      modifies this
      ensures Valid()
      ensures items == QuantityUpdated(old(items), productId, quantity)
      ensures old(UniqueKeys(items)) ==> UniqueKeys(items)
    {
      if quantity <= 0 {
        RemoveFromCart(productId);
        return;
      }
      var newItems := WithQuantity(items, productId, quantity);
      if UniqueKeys(items) {
        UpdatePreservesUnique(items, productId, quantity);
      }
      items, totalItems, totalPrice := newItems, TotalItems(newItems), TotalPrice(newItems);
    }

    /** Empties the cart; the new state does not depend on the old one, so clearing twice is clearing once. */
    method ClearCart()
      modifies this
      ensures Valid()
      ensures items == [] && totalItems == 0 && totalPrice == 0.0
    {
      items, totalItems, totalPrice := [], 0, 0.0;
    }

    function IsInCart(productId: string): (b: bool)
      reads this
      ensures b <==> exists i :: 0 <= i < |items| && items[i].product.id == productId
    {
      HasProduct(items, productId)
    }
  }
}
