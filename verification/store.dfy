/** The shopping state store (store/useStore.ts): cart lines, favourites,
    the product and category catalogue and the theme preference, with the
    actions that replace one field at a time and the derived reads over the
    current field values. Prices are whole numbers of the smallest currency
    unit. */
module Store {
  import opened Seqs
  import opened Text

  datatype Theme = Light | Dark

  datatype Product = Product(
    id: string,
    name: string,
    price: int,
    image: string,
    description: string,
    category: string,
    rating: int,
    reviews: int,
    originalPrice: Option<int>,
    discount: Option<int>)

  /** A cart line: the product as it was when it was first added, and how
      many of it the cart holds. */
  datatype CartItem = CartItem(product: Product, quantity: int)

  datatype Category = Category(id: string, name: string, image: string, productCount: int)

  /** The part of the state that is persisted across restarts. */
  datatype Snapshot = Snapshot(cartItems: seq<CartItem>, favorites: seq<Product>, theme: Theme)

  /** The id a cart line is keyed by: that of its product. */
  function ItemId(item: CartItem): string { item.product.id }

  function ProductId(p: Product): string { p.id }

  // ---------------------------------------------------------------------
  // Cart

  /** Some line of the cart is for product `id` (`cartItems.find(...)`). */
  predicate HasLine(items: seq<CartItem>, id: string)
  {
    exists i :: 0 <= i < |items| && ItemId(items[i]) == id
  }

  /** The store's cart invariant: one line per product id, and every
      quantity at least 1. */
  predicate CartWellFormed(items: seq<CartItem>)
  {
    DistinctKeys(ItemId, items) && forall i :: 0 <= i < |items| ==> items[i].quantity >= 1
  }

  /** The cart after `addToCart(p)`: a line for `p.id` already there gets one
      more (every matching line, keeping what was stored when it was first
      added); otherwise a line for `p` with quantity 1 is appended. */
  function AddedToCart(items: seq<CartItem>, p: Product): (r: seq<CartItem>)
    ensures HasLine(r, p.id)
    ensures HasLine(items, p.id) ==>
      |r| == |items| &&
      forall i :: 0 <= i < |items| ==>
        r[i].product == items[i].product &&
        r[i].quantity == items[i].quantity + (if ItemId(items[i]) == p.id then 1 else 0)
    ensures !HasLine(items, p.id) ==> r == items + [CartItem(p, 1)]
  {
    if HasLine(items, p.id) then
      var r := seq(|items|, i requires 0 <= i < |items| =>
                 if ItemId(items[i]) == p.id then items[i].(quantity := items[i].quantity + 1) else items[i]);
      assert exists i :: 0 <= i < |r| && ItemId(r[i]) == p.id by {
        var k :| 0 <= k < |items| && ItemId(items[k]) == p.id;
        assert ItemId(r[k]) == p.id;
      }
      r
    else
      var r := items + [CartItem(p, 1)];
      assert ItemId(r[|items|]) == p.id;
      r
  }

  function NotId(id: string): CartItem -> bool
  {
    (item: CartItem) => ItemId(item) != id
  }

  /** The cart after `removeFromCart(id)`: every line for `id` is dropped and
      the rest keep their order. */
  function RemovedFromCart(items: seq<CartItem>, id: string): (r: seq<CartItem>)
    ensures !HasLine(r, id)
    ensures forall x :: x in r ==> x in items && ItemId(x) != id
    ensures forall x :: x in items && ItemId(x) != id ==> x in r
    ensures IsSubsequence(r, items)
    ensures !HasLine(items, id) ==> r == items
  {
    FilterIsSubsequence(NotId(id), items);
    FilterMembers(NotId(id), items);
    if !HasLine(items, id) then FilterKeepsAll(NotId(id), items); Filter(NotId(id), items)
    else
      var r := Filter(NotId(id), items);
      assert forall i :: 0 <= i < |r| ==> r[i] in r;
      r
  }

  /** The cart after `updateQuantity(id, q)`: a non-positive `q` removes the
      product; otherwise every line for `id` gets quantity `q` (replaced, not
      added) and nothing else changes. */
  function UpdatedQuantity(items: seq<CartItem>, id: string, q: int): (r: seq<CartItem>)
    ensures q <= 0 ==> r == RemovedFromCart(items, id)
    ensures q > 0 ==>
      |r| == |items| &&
      forall i :: 0 <= i < |items| ==>
        r[i].product == items[i].product &&
        r[i].quantity == (if ItemId(items[i]) == id then q else items[i].quantity)
    ensures !HasLine(items, id) ==> r == items
  {
    if q <= 0 then RemovedFromCart(items, id)
    else
      var r := seq(|items|, i requires 0 <= i < |items| =>
                 if ItemId(items[i]) == id then items[i].(quantity := q) else items[i]);
      assert !HasLine(items, id) ==> r == items;
      r
  }

  /** The sum of `w` over the lines: the `reduce(..., 0)` the store's
      totals use. */
  function Sum(w: CartItem -> int, items: seq<CartItem>): (total: int)
    ensures (forall i :: 0 <= i < |items| ==> w(items[i]) >= 0) ==> total >= 0
  {
    if items == [] then 0 else w(items[0]) + Sum(w, items[1..])
  }

  function LineTotal(item: CartItem): int { item.product.price * item.quantity }

  function LineQuantity(item: CartItem): int { item.quantity }

  /** The sum taken from the last line backwards equals the one taken from
      the first line forwards: `reduce` runs left to right. */
  lemma SumLast(w: CartItem -> int, items: seq<CartItem>)
    requires items != []
    ensures Sum(w, items) == Sum(w, items[..|items| - 1]) + w(items[|items| - 1])
  {
    var n := |items| - 1;
    assert items == items[..n] + [items[n]];
    SumAppend(w, items[..n], [items[n]]);
    assert [items[n]][1..] == [];
  }

  /** `getCartTotal()`: the sum of price times quantity over the lines; 0
      for an empty cart, and never negative when no price or quantity is. */
  function CartTotal(items: seq<CartItem>): (total: int)
    ensures items == [] ==> total == 0
    ensures (forall i :: 0 <= i < |items| ==> items[i].product.price >= 0 && items[i].quantity >= 0) ==>
      total >= 0
  {
    assert (forall i :: 0 <= i < |items| ==> items[i].product.price >= 0 && items[i].quantity >= 0) ==>
      forall i :: 0 <= i < |items| ==> LineTotal(items[i]) >= 0;
    Sum(LineTotal, items)
  }

  /** `getCartItemCount()`: the sum of the quantities; 0 for an empty cart,
      and, since it counts units rather than lines, at least the number of
      lines when every quantity is at least 1. */
  function CartItemCount(items: seq<CartItem>): (count: int)
    ensures items == [] ==> count == 0
    ensures (forall i :: 0 <= i < |items| ==> items[i].quantity >= 1) ==> count >= |items|
  {
    if forall i :: 0 <= i < |items| ==> items[i].quantity >= 1 then
      SumAtLeastLength(LineQuantity, items);
      Sum(LineQuantity, items)
    else
      Sum(LineQuantity, items)
  }

  /** The totals as `reduce` computes them, from the first line to the last:
      the last line adds its price times quantity to the total of the ones
      before it, and its quantity to their count. */
  lemma CartTotalsLeftToRight(items: seq<CartItem>)
    requires items != []
    ensures CartTotal(items) ==
      CartTotal(items[..|items| - 1]) + items[|items| - 1].product.price * items[|items| - 1].quantity
    ensures CartItemCount(items) == CartItemCount(items[..|items| - 1]) + items[|items| - 1].quantity
  {
    SumLast(LineTotal, items);
    SumLast(LineQuantity, items);
  }

  lemma {:induction false} SumAppend(w: CartItem -> int, a: seq<CartItem>, b: seq<CartItem>)
    ensures Sum(w, a + b) == Sum(w, a) + Sum(w, b)
  {
    if a != [] {
      assert (a + b)[1..] == a[1..] + b;
      SumAppend(w, a[1..], b);
    } else {
      assert a + b == b;
    }
  }

  /** Replacing one line changes the sum by the difference of the two
      lines' weights. */
  lemma {:induction false} SumUpdate(w: CartItem -> int, s: seq<CartItem>, k: nat, x: CartItem)
    requires k < |s|
    ensures Sum(w, s[k := x]) == Sum(w, s) - w(s[k]) + w(x)
  {
    if k == 0 {
      assert s[k := x][1..] == s[1..];
    } else {
      assert s[k := x][1..] == s[1..][k - 1 := x];
      SumUpdate(w, s[1..], k - 1, x);
    }
  }

  /** Dropping one line lowers the sum by that line's weight. */
  lemma {:induction false} SumRemove(w: CartItem -> int, s: seq<CartItem>, k: nat)
    requires k < |s|
    ensures Sum(w, s[..k] + s[k + 1..]) == Sum(w, s) - w(s[k])
  {
    var a, b := s[..k], s[k + 1..];
    assert s == a + [s[k]] + b;
    SumAppend(w, a + [s[k]], b);
    SumAppend(w, a, [s[k]]);
    SumAppend(w, a, b);
    assert [s[k]][1..] == [];
  }

  /** Every line weighs at least 1, so the sum is at least the number of
      lines: the item count is never below the number of distinct lines. */
  lemma {:induction false} SumAtLeastLength(w: CartItem -> int, s: seq<CartItem>)
    requires forall i :: 0 <= i < |s| ==> w(s[i]) >= 1
    ensures Sum(w, s) >= |s|
  {
    if s != [] {
      SumAtLeastLength(w, s[1..]);
    }
  }

  /** In a well-formed cart the item count is at least the number of
      lines: it counts units, not distinct products. */
  lemma ItemCountAtLeastLines(items: seq<CartItem>)
    requires CartWellFormed(items)
    ensures CartItemCount(items) >= |items|
  {
    SumAtLeastLength(LineQuantity, items);
  }

  /** Different lines of a well-formed cart are for different products. */
  lemma DifferentLines(items: seq<CartItem>, k: nat, k': nat)
    requires CartWellFormed(items)
    requires k < |items| && k' < |items| && k != k'
    ensures ItemId(items[k]) != ItemId(items[k'])
  {
    if k < k' {
      assert ItemId(items[k]) != ItemId(items[k']);
    } else {
      assert ItemId(items[k']) != ItemId(items[k]);
    }
  }

  /** In a well-formed cart, adding a product that has a line at `k`
      replaces exactly that line by the same line with one more. */
  lemma AddedToCartAt(items: seq<CartItem>, p: Product, k: nat)
    requires CartWellFormed(items)
    requires k < |items| && ItemId(items[k]) == p.id
    ensures AddedToCart(items, p) == items[k := items[k].(quantity := items[k].quantity + 1)]
  {
    var r := AddedToCart(items, p);
    var e := items[k := items[k].(quantity := items[k].quantity + 1)];
    assert HasLine(items, p.id);
    forall i | 0 <= i < |items| ensures r[i] == e[i] {
      if i != k {
        assert ItemId(items[i]) != ItemId(items[k]) by {
          if i < k { } else { }
        }
      }
    }
  }

  lemma AddedToCartPreservesWellFormed(items: seq<CartItem>, p: Product)
    requires CartWellFormed(items)
    ensures CartWellFormed(AddedToCart(items, p))
  {
    var r := AddedToCart(items, p);
    if HasLine(items, p.id) {
      assert forall i :: 0 <= i < |r| ==> ItemId(r[i]) == ItemId(items[i]);
    } else {
      forall i, j | 0 <= i < j < |r| ensures ItemId(r[i]) != ItemId(r[j]) {
        if j == |items| {
          assert r[i] == items[i];
        } else {
          assert r[i] == items[i] && r[j] == items[j];
        }
      }
    }
  }

  /** Adding a product that already has a line raises the item count by 1
      and the total by the price stored in that line when it was created,
      whatever the product's current price. */
  lemma AddedToCartExistingTotals(items: seq<CartItem>, p: Product, k: nat)
    requires CartWellFormed(items)
    requires k < |items| && ItemId(items[k]) == p.id
    ensures CartItemCount(AddedToCart(items, p)) == CartItemCount(items) + 1
    ensures CartTotal(AddedToCart(items, p)) == CartTotal(items) + items[k].product.price
  {
    var x := items[k].(quantity := items[k].quantity + 1);
    AddedToCartAt(items, p, k);
    SumUpdate(LineQuantity, items, k, x);
    SumUpdate(LineTotal, items, k, x);
    MulSucc(items[k].product.price, items[k].quantity);
  }

  lemma MulSucc(a: int, b: int)
    ensures a * (b + 1) == a * b + a
  {
  }

  /** Adding a product without a line raises the item count by 1 and the
      total by the product's price. */
  lemma AddedToCartNewTotals(items: seq<CartItem>, p: Product)
    requires !HasLine(items, p.id)
    ensures CartItemCount(AddedToCart(items, p)) == CartItemCount(items) + 1
    ensures CartTotal(AddedToCart(items, p)) == CartTotal(items) + p.price
  {
    SumAppend(LineQuantity, items, [CartItem(p, 1)]);
    SumAppend(LineTotal, items, [CartItem(p, 1)]);
    assert [CartItem(p, 1)][1..] == [];
  }

  /** The cart after `addToCart(p)` has been called `n` times in a row. */
  function AddedTimes(items: seq<CartItem>, p: Product, n: nat): seq<CartItem>
    decreases n
  {
    if n == 0 then items else AddedToCart(AddedTimes(items, p, n - 1), p)
  }

  /** `n` additions of a product already in the cart raise that line's
      quantity by `n` and change nothing else. */
  lemma {:induction false} AddedTimesExisting(items: seq<CartItem>, p: Product, n: nat, k: nat)
    requires CartWellFormed(items)
    requires k < |items| && ItemId(items[k]) == p.id
    ensures AddedTimes(items, p, n) == items[k := items[k].(quantity := items[k].quantity + n)]
    decreases n
  {
    if n > 0 {
      AddedTimesExisting(items, p, n - 1, k);
      var prev := items[k := items[k].(quantity := items[k].quantity + (n - 1))];
      RaisedLineWellFormed(items, k, n - 1);
      AddedToCartAt(prev, p, k);
      assert prev[k := prev[k].(quantity := prev[k].quantity + 1)] ==
        items[k := items[k].(quantity := items[k].quantity + n)];
    }
  }

  /** Raising one line's quantity keeps the cart well formed. */
  lemma RaisedLineWellFormed(items: seq<CartItem>, k: nat, d: nat)
    requires CartWellFormed(items) && k < |items|
    ensures CartWellFormed(items[k := items[k].(quantity := items[k].quantity + d)])
  {
    var r := items[k := items[k].(quantity := items[k].quantity + d)];
    assert forall i :: 0 <= i < |r| ==> ItemId(r[i]) == ItemId(items[i]);
  }

  /** `n >= 1` additions of a product not in the cart append one line for it
      with quantity `n`. */
  lemma {:induction false} AddedTimesNew(items: seq<CartItem>, p: Product, n: nat)
    requires CartWellFormed(items) && !HasLine(items, p.id)
    requires n >= 1
    ensures AddedTimes(items, p, n) == items + [CartItem(p, n)]
    decreases n
  {
    if n > 1 {
      AddedTimesNew(items, p, n - 1);
      var prev := items + [CartItem(p, n - 1)];
      assert CartWellFormed(prev) by {
        forall i, j | 0 <= i < j < |prev| ensures ItemId(prev[i]) != ItemId(prev[j]) {
          assert prev[i] == items[i];
          if j < |items| { assert prev[j] == items[j]; }
        }
      }
      AddedToCartAt(prev, p, |items|);
      assert prev[|items| := CartItem(p, n - 1).(quantity := n)] == items + [CartItem(p, n)];
    }
  }

  /** Starting from an empty cart, `n >= 1` additions of one product leave
      exactly one line, for that product, with quantity `n`. */
  lemma AddedTimesFromEmpty(p: Product, n: nat)
    requires n >= 1
    ensures AddedTimes([], p, n) == [CartItem(p, n)]
  {
    AddedTimesNew([], p, n);
  }

  /** In a well-formed cart, removing the product of line `k` drops exactly
      that line. */
  lemma RemovedFromCartAt(items: seq<CartItem>, id: string, k: nat)
    requires CartWellFormed(items)
    requires k < |items| && ItemId(items[k]) == id
    ensures RemovedFromCart(items, id) == items[..k] + items[k + 1..]
  {
    var f := NotId(id);
    var a, b := items[..k], items[k + 1..];
    NoLineFor(items, a, id, 0, k);
    NoLineFor(items, b, id, k + 1, k);
    FilterDropsOne(f, a, items[k], b);
    assert items == a + [items[k]] + b;
  }

  /** A slice of a well-formed cart that avoids line `k` has no line for
      that line's product. */
  lemma NoLineFor(items: seq<CartItem>, part: seq<CartItem>, id: string, from: nat, k: nat)
    requires CartWellFormed(items)
    requires k < |items| && ItemId(items[k]) == id
    requires from + |part| <= |items| && part == items[from..from + |part|]
    requires k < from || from + |part| <= k
    ensures forall i :: 0 <= i < |part| ==> NotId(id)(part[i])
  {
    forall i | 0 <= i < |part| ensures NotId(id)(part[i]) {
      assert part[i] == items[from + i];
      DifferentLines(items, k, from + i);
    }
  }

  lemma RemovedFromCartPreservesWellFormed(items: seq<CartItem>, id: string)
    requires CartWellFormed(items)
    ensures CartWellFormed(RemovedFromCart(items, id))
  {
    FilterKeepsDistinct(NotId(id), ItemId, items);
    var r := RemovedFromCart(items, id);
    forall i | 0 <= i < |r| ensures r[i].quantity >= 1 {
      assert r[i] in r;
    }
  }

  /** Removing a product lowers the total and the item count by exactly
      what its line contributed, and is a no-op when it is absent. */
  lemma RemovedFromCartTotals(items: seq<CartItem>, id: string, k: nat)
    requires CartWellFormed(items)
    requires k < |items| && ItemId(items[k]) == id
    ensures CartTotal(RemovedFromCart(items, id)) == CartTotal(items) - LineTotal(items[k])
    ensures CartItemCount(RemovedFromCart(items, id)) == CartItemCount(items) - items[k].quantity
  {
    RemovedFromCartAt(items, id, k);
    SumRemove(LineTotal, items, k);
    SumRemove(LineQuantity, items, k);
  }

  /** In a well-formed cart, a positive update of the product of line `k`
      sets that line's quantity and changes nothing else. */
  lemma UpdatedQuantityAt(items: seq<CartItem>, id: string, q: int, k: nat)
    requires CartWellFormed(items)
    requires k < |items| && ItemId(items[k]) == id && q > 0
    ensures UpdatedQuantity(items, id, q) == items[k := items[k].(quantity := q)]
    ensures CartItemCount(UpdatedQuantity(items, id, q)) == CartItemCount(items) - items[k].quantity + q
  {
    var r := UpdatedQuantity(items, id, q);
    var e := items[k := items[k].(quantity := q)];
    forall i | 0 <= i < |items| ensures r[i] == e[i] {
      if i != k {
        assert ItemId(items[i]) != ItemId(items[k]);
      }
    }
    assert r == e;
    SumUpdate(LineQuantity, items, k, items[k].(quantity := q));
  }

  lemma UpdatedQuantityPreservesWellFormed(items: seq<CartItem>, id: string, q: int)
    requires CartWellFormed(items)
    ensures CartWellFormed(UpdatedQuantity(items, id, q))
  {
    if q <= 0 {
      RemovedFromCartPreservesWellFormed(items, id);
    } else {
      var r := UpdatedQuantity(items, id, q);
      assert forall i :: 0 <= i < |r| ==> ItemId(r[i]) == ItemId(items[i]);
    }
  }

  /** Starting from an empty cart, adding a product twice and then setting
      its quantity to 5 leaves one line of 5 and a total of 5 times its
      price. */
  lemma AddTwiceThenUpdateScenario(p: Product)
    ensures UpdatedQuantity(AddedToCart(AddedToCart([], p), p), p.id, 5) == [CartItem(p, 5)]
    ensures CartTotal(UpdatedQuantity(AddedToCart(AddedToCart([], p), p), p.id, 5)) == 5 * p.price
  {
    AddedTimesFromEmpty(p, 2);
    assert AddedTimes([], p, 1) == AddedToCart([], p);
    assert AddedToCart(AddedToCart([], p), p) == [CartItem(p, 2)];
    UpdatedQuantityAt([CartItem(p, 2)], p.id, 5, 0);
    var r := [CartItem(p, 5)];
    assert UpdatedQuantity([CartItem(p, 2)], p.id, 5) == r;
    assert r[1..] == [];
    assert CartTotal(r) == LineTotal(r[0]) + CartTotal(r[1..]);
  }

  // ---------------------------------------------------------------------
  // Favourites

  function HasId(id: string): Product -> bool
  {
    (p: Product) => p.id == id
  }

  /** `isFavorite(id)` (`some`): some favourite has that id. It agrees with
      the `find` that `addToFavorites` tests, which succeeds exactly when
      `some` holds. */
  function IsFavorite(favorites: seq<Product>, id: string): (b: bool)
    ensures b <==> Find(HasId(id), favorites).Some?
  {
    exists i :: 0 <= i < |favorites| && favorites[i].id == id
  }

  /** The favourites after `addToFavorites(p)`: `p` is appended unless a
      favourite with its id is already there, in which case nothing
      changes. */
  function AddedToFavorites(favorites: seq<Product>, p: Product): (r: seq<Product>)
    ensures IsFavorite(r, p.id)
    ensures IsFavorite(favorites, p.id) ==> r == favorites
    ensures !IsFavorite(favorites, p.id) ==> r == favorites + [p]
    ensures forall id :: id != p.id ==> (IsFavorite(r, id) <==> IsFavorite(favorites, id))
  {
    if IsFavorite(favorites, p.id) then favorites
    else
      var r := favorites + [p];
      assert r[|favorites|].id == p.id;
      assert forall i :: 0 <= i < |favorites| ==> r[i] == favorites[i];
      r
  }

  function NotProduct(id: string): Product -> bool
  {
    (p: Product) => p.id != id
  }

  /** The favourites after `removeFromFavorites(id)`: every favourite with
      that id is dropped, the rest keep their order. */
  function RemovedFromFavorites(favorites: seq<Product>, id: string): (r: seq<Product>)
    ensures !IsFavorite(r, id)
    ensures forall x :: x in r ==> x in favorites && x.id != id
    ensures forall x :: x in favorites && x.id != id ==> x in r
    ensures IsSubsequence(r, favorites)
    ensures forall other :: other != id ==> (IsFavorite(r, other) <==> IsFavorite(favorites, other))
    ensures !IsFavorite(favorites, id) ==> r == favorites
  {
    FilterIsSubsequence(NotProduct(id), favorites);
    FilterMembers(NotProduct(id), favorites);
    if !IsFavorite(favorites, id) then FilterKeepsAll(NotProduct(id), favorites); Filter(NotProduct(id), favorites)
    else
      var r := Filter(NotProduct(id), favorites);
      assert forall i :: 0 <= i < |r| ==> r[i] in r;
      assert forall i :: 0 <= i < |favorites| ==> favorites[i] in favorites;
      r
  }

  /** Adding favourites never creates two with one id. */
  lemma AddedToFavoritesKeepsDistinct(favorites: seq<Product>, p: Product)
    requires DistinctKeys(ProductId, favorites)
    ensures DistinctKeys(ProductId, AddedToFavorites(favorites, p))
  {
    var r := AddedToFavorites(favorites, p);
    if !IsFavorite(favorites, p.id) {
      forall i, j | 0 <= i < j < |r| ensures ProductId(r[i]) != ProductId(r[j]) {
        assert r[i] == favorites[i];
        if j < |favorites| { assert r[j] == favorites[j]; }
      }
    }
  }

  /** A second `removeFromCart` of the same id is a no-op. */
  lemma RemovedFromCartIdempotent(items: seq<CartItem>, id: string)
    ensures RemovedFromCart(RemovedFromCart(items, id), id) == RemovedFromCart(items, id)
  {
    FilterIdempotent(NotId(id), items);
  }

  /** A second `removeFromFavorites` of the same id is a no-op. */
  lemma RemovedFromFavoritesIdempotent(favorites: seq<Product>, id: string)
    ensures RemovedFromFavorites(RemovedFromFavorites(favorites, id), id) == RemovedFromFavorites(favorites, id)
  {
    FilterIdempotent(NotProduct(id), favorites);
  }

  /** A second `addToFavorites` of the same product is a no-op. */
  lemma AddedToFavoritesIdempotent(favorites: seq<Product>, p: Product)
    ensures AddedToFavorites(AddedToFavorites(favorites, p), p) == AddedToFavorites(favorites, p)
  {
  }

  // ---------------------------------------------------------------------
  // Catalogue

  function InCategory(categoryId: string): Product -> bool
  {
    (p: Product) => p.category == categoryId
  }

  /** `getProductsByCategory(c)`: exactly the products whose category is
      `c`, in catalogue order. */
  function ProductsByCategory(products: seq<Product>, categoryId: string): (r: seq<Product>)
    ensures forall x :: x in r ==> x in products && x.category == categoryId
    ensures forall x :: x in products && x.category == categoryId ==> x in r
    ensures IsSubsequence(r, products)
    ensures forall x: Product :: x.category == categoryId ==> multiset(r)[x] == multiset(products)[x]
  {
    FilterIsSubsequence(InCategory(categoryId), products);
    FilterMembers(InCategory(categoryId), products);
    FilterCounts(InCategory(categoryId), products);
    Filter(InCategory(categoryId), products)
  }

  /** A product matches a lower-cased query when the query occurs in its
      lower-cased name, description or category. */
  function Matches(p: Product, lowerQuery: string): (b: bool)
    ensures lowerQuery == "" ==> b
    ensures b ==> |lowerQuery| <= |p.name| || |lowerQuery| <= |p.description| || |lowerQuery| <= |p.category|
  {
    ContainsEmpty(Lower(p.name));
    Contains(Lower(p.name), lowerQuery) ||
    Contains(Lower(p.description), lowerQuery) ||
    Contains(Lower(p.category), lowerQuery)
  }

  function MatchesQuery(lowerQuery: string): Product -> bool
  {
    (p: Product) => Matches(p, lowerQuery)
  }

  /** `searchProducts(q)`: the products whose name, description or category
      contains `q`, ignoring case, in catalogue order. */
  function SearchProducts(products: seq<Product>, query: string): (r: seq<Product>)
    ensures forall x :: x in r ==> x in products && Matches(x, Lower(query))
    ensures forall x :: x in products && Matches(x, Lower(query)) ==> x in r
    ensures IsSubsequence(r, products)
    ensures forall x: Product :: Matches(x, Lower(query)) ==> multiset(r)[x] == multiset(products)[x]
  {
    FilterIsSubsequence(MatchesQuery(Lower(query)), products);
    FilterMembers(MatchesQuery(Lower(query)), products);
    FilterCounts(MatchesQuery(Lower(query)), products);
    Filter(MatchesQuery(Lower(query)), products)
  }

  /** The empty query returns the whole catalogue. */
  lemma SearchEmptyQuery(products: seq<Product>)
    ensures SearchProducts(products, "") == products
  {
    assert Lower("") == "";
    forall i | 0 <= i < |products| ensures MatchesQuery("")(products[i]) {
      ContainsEmpty(Lower(products[i].name));
    }
    FilterKeepsAll(MatchesQuery(""), products);
  }

  /** The query's case does not matter. */
  lemma SearchIgnoresQueryCase(products: seq<Product>, query: string)
    ensures SearchProducts(products, Lower(query)) == SearchProducts(products, query)
  {
    LowerIdempotent(query);
  }

  /** A product is found by any query that occurs in its name, its
      description or its category as written, whatever the case of either. */
  lemma SearchFindsContaining(products: seq<Product>, p: Product, query: string)
    requires p in products
    requires Contains(p.name, query) || Contains(p.description, query) || Contains(p.category, query)
    ensures p in SearchProducts(products, query)
  {
    if Contains(p.name, query) {
      LowerContains(p.name, query);
    } else if Contains(p.description, query) {
      LowerContains(p.description, query);
    } else {
      LowerContains(p.category, query);
    }
  }

  // ---------------------------------------------------------------------
  // Theme

  /** `toggleTheme`: dark becomes light, anything else becomes dark. */
  function Toggled(t: Theme): (r: Theme)
    ensures r != t
  {
    if t == Dark then Light else Dark
  }

  lemma ToggledTwice(t: Theme)
    ensures Toggled(Toggled(t)) == t
  {
  }

  // ---------------------------------------------------------------------
  // The store object

  class ShoppingStore {
    var cartItems: seq<CartItem>
    var favorites: seq<Product>
    var products: seq<Product>
    var categories: seq<Category>
    var theme: Theme

    /** The invariants every action keeps: one cart line per product with a
        positive quantity, and no two favourites with one id. */
    ghost predicate Valid()
      reads this
    {
      CartWellFormed(cartItems) && DistinctKeys(ProductId, favorites)
    }

    /** The initial state. */
    constructor ()
      ensures Valid()
      ensures cartItems == [] && favorites == [] && products == [] && categories == []
      ensures theme == Light
    {
      cartItems, favorites, products, categories := [], [], [], [];
      theme := Light;
    }

    /** `partialize`: the persisted snapshot holds the cart, the favourites
        and the theme, never the catalogue. */
    function Partialize(): (saved: Snapshot)
      reads this
      ensures saved.cartItems == cartItems && saved.favorites == favorites && saved.theme == theme
      ensures Valid() ==> CartWellFormed(saved.cartItems) && DistinctKeys(ProductId, saved.favorites)
    {
      Snapshot(cartItems, favorites, theme)
    }

    method AddToCart(product: Product)
      modifies this
      ensures cartItems == AddedToCart(old(cartItems), product)
      ensures favorites == old(favorites) && products == old(products)
      ensures categories == old(categories) && theme == old(theme)
      ensures old(Valid()) ==> Valid()
      ensures old(Valid()) ==> CartItemCount(cartItems) == CartItemCount(old(cartItems)) + 1
    {
      if CartWellFormed(cartItems) {
        AddedToCartPreservesWellFormed(cartItems, product);
        if HasLine(cartItems, product.id) {
          var k :| 0 <= k < |cartItems| && ItemId(cartItems[k]) == product.id;
          AddedToCartExistingTotals(cartItems, product, k);
        } else {
          AddedToCartNewTotals(cartItems, product);
        }
      }
      cartItems := AddedToCart(cartItems, product);
    }

    method RemoveFromCart(productId: string)
      modifies this
      ensures cartItems == RemovedFromCart(old(cartItems), productId)
      ensures favorites == old(favorites) && products == old(products)
      ensures categories == old(categories) && theme == old(theme)
      ensures old(Valid()) ==> Valid()
    {
      if CartWellFormed(cartItems) {
        RemovedFromCartPreservesWellFormed(cartItems, productId);
      }
      cartItems := RemovedFromCart(cartItems, productId);
    }

    method UpdateQuantity(productId: string, quantity: int)
      modifies this
      ensures cartItems == UpdatedQuantity(old(cartItems), productId, quantity)
      ensures favorites == old(favorites) && products == old(products)
      ensures categories == old(categories) && theme == old(theme)
      ensures old(Valid()) ==> Valid()
    {
      if quantity <= 0 {
        RemoveFromCart(productId);
        return;
      }
      if CartWellFormed(cartItems) {
        UpdatedQuantityPreservesWellFormed(cartItems, productId, quantity);
      }
      cartItems := UpdatedQuantity(cartItems, productId, quantity);
    }

    method ClearCart()
      modifies this
      ensures cartItems == []
      ensures CartTotal(cartItems) == 0 && CartItemCount(cartItems) == 0
      ensures favorites == old(favorites) && products == old(products)
      ensures categories == old(categories) && theme == old(theme)
      ensures old(Valid()) ==> Valid()
    {
      cartItems := [];
    }

    method AddToFavorites(product: Product)
      modifies this
      ensures favorites == AddedToFavorites(old(favorites), product)
      ensures IsFavorite(favorites, product.id)
      ensures cartItems == old(cartItems) && products == old(products)
      ensures categories == old(categories) && theme == old(theme)
      ensures old(Valid()) ==> Valid()
    {
      if DistinctKeys(ProductId, favorites) {
        AddedToFavoritesKeepsDistinct(favorites, product);
      }
      favorites := AddedToFavorites(favorites, product);
    }

    method RemoveFromFavorites(productId: string)
      modifies this
      ensures favorites == RemovedFromFavorites(old(favorites), productId)
      ensures !IsFavorite(favorites, productId)
      ensures cartItems == old(cartItems) && products == old(products)
      ensures categories == old(categories) && theme == old(theme)
      ensures old(Valid()) ==> Valid()
    {
      if DistinctKeys(ProductId, favorites) {
        FilterKeepsDistinct(NotProduct(productId), ProductId, favorites);
      }
      favorites := RemovedFromFavorites(favorites, productId);
    }

    method SetProducts(newProducts: seq<Product>)
      modifies this
      ensures products == newProducts
      ensures cartItems == old(cartItems) && favorites == old(favorites)
      ensures categories == old(categories) && theme == old(theme)
      ensures Partialize() == old(Partialize())
      ensures old(Valid()) ==> Valid()
    {
      products := newProducts;
    }

    method SetCategories(newCategories: seq<Category>)
      modifies this
      ensures categories == newCategories
      ensures cartItems == old(cartItems) && favorites == old(favorites)
      ensures products == old(products) && theme == old(theme)
      ensures Partialize() == old(Partialize())
      ensures old(Valid()) ==> Valid()
    {
      categories := newCategories;
    }

    method SetTheme(newTheme: Theme)
      modifies this
      ensures theme == newTheme
      ensures cartItems == old(cartItems) && favorites == old(favorites)
      ensures products == old(products) && categories == old(categories)
      ensures old(Valid()) ==> Valid()
    {
      theme := newTheme;
    }

    method ToggleTheme()
      modifies this
      ensures theme == Toggled(old(theme))
      ensures cartItems == old(cartItems) && favorites == old(favorites)
      ensures products == old(products) && categories == old(categories)
      ensures old(Valid()) ==> Valid()
    {
      theme := if theme == Dark then Light else Dark;
    }
  }
}
