/** The product detail screen (app/product-detail.tsx): the product looked
    up from the route parameter, the quantity selector, and the buttons that
    add the chosen quantity to the cart and toggle the favourite. The
    store's actions are those of `Store.ShoppingStore`. */
module ProductDetail {
  import opened Seqs
  import opened Store

  /** The lookup effect: with a non-empty route id and a non-empty catalogue
      the shown product becomes the first product with that id, or none;
      otherwise the previously shown product stays. */
  function LookedUp(previous: Option<Product>, productId: string, products: seq<Product>): (r: Option<Product>)
    ensures productId == "" || products == [] ==> r == previous
    ensures productId != "" && products != [] ==>
      (r.None? <==> forall i :: 0 <= i < |products| ==> products[i].id != productId)
    ensures productId != "" && products != [] && r.Some? ==>
      exists k :: 0 <= k < |products| && products[k] == r.value && r.value.id == productId &&
        forall i :: 0 <= i < k ==> products[i].id != productId
  {
    if productId != "" && |products| > 0 then Find(HasId(productId), products) else previous
  }

  /** The "Total Price" line: what a cart holding only `quantity` units of
      `p` would total. */
  function TotalPrice(p: Product, quantity: int): (total: int)
    ensures total == CartTotal([CartItem(p, quantity)])
  {
    assert [CartItem(p, quantity)][1..] == [];
    assert CartTotal([CartItem(p, quantity)]) == LineTotal(CartItem(p, quantity)) + Sum(LineTotal, []);
    p.price * quantity
  }

  /** The price the cart charges per unit of `p`: that of the line already
      holding `p.id`, or `p`'s own price when there is none. */
  function ChargedPrice(items: seq<CartItem>, p: Product): int
  {
    match Find((item: CartItem) => ItemId(item) == p.id, items)
    case Some(line) => line.product.price
    case None => p.price
  }

  /** `n` more units on one line cost `n` times that line's price. */
  lemma RaisedLineTotal(item: CartItem, n: nat)
    ensures LineTotal(item.(quantity := item.quantity + n)) == LineTotal(item) + n * item.product.price
  {
    var c, q := item.product.price, item.quantity;
    assert c * (q + n) == c * q + c * n;
  }

  /** Raising the quantity of line `k` by `n` raises the item count by `n`
      and the total by `n` units at that line's price. */
  lemma RaisedLineTotals(items: seq<CartItem>, k: nat, n: nat)
    requires k < |items|
    ensures CartItemCount(items[k := items[k].(quantity := items[k].quantity + n)]) ==
      CartItemCount(items) + n
    ensures CartTotal(items[k := items[k].(quantity := items[k].quantity + n)]) ==
      CartTotal(items) + n * items[k].product.price
  {
    var line := items[k].(quantity := items[k].quantity + n);
    SumUpdate(LineQuantity, items, k, line);
    SumUpdate(LineTotal, items, k, line);
    RaisedLineTotal(items[k], n);
  }

  /** Appending a line of `n` units of `p` raises the item count by `n` and
      the total by `n` units at `p`'s price. */
  lemma AppendedLineTotals(items: seq<CartItem>, p: Product, n: nat)
    ensures CartItemCount(items + [CartItem(p, n)]) == CartItemCount(items) + n
    ensures CartTotal(items + [CartItem(p, n)]) == CartTotal(items) + n * p.price
  {
    SumAppend(LineQuantity, items, [CartItem(p, n)]);
    SumAppend(LineTotal, items, [CartItem(p, n)]);
    assert [CartItem(p, n)][1..] == [];
  }

  /** Adding `n >= 1` units of a product that has line `k`: the cart stays
      well formed, and the count and total grow by `n` units at that line's
      stored price. */
  lemma AddedTimesExistingTotals(items: seq<CartItem>, p: Product, n: nat, k: nat)
    requires CartWellFormed(items) && n >= 1
    requires k < |items| && ItemId(items[k]) == p.id
    ensures CartWellFormed(AddedTimes(items, p, n))
    ensures CartItemCount(AddedTimes(items, p, n)) == CartItemCount(items) + n
    ensures CartTotal(AddedTimes(items, p, n)) == CartTotal(items) + n * items[k].product.price
  {
    AddedTimesExisting(items, p, n, k);
    RaisedLineWellFormed(items, k, n);
    RaisedLineTotals(items, k, n);
  }

  /** Adding `n >= 1` units of a product the cart has no line for: the cart
      stays well formed, and the count and total grow by `n` units at the
      product's own price. */
  lemma AddedTimesNewTotals(items: seq<CartItem>, p: Product, n: nat)
    requires CartWellFormed(items) && n >= 1
    requires !HasLine(items, p.id)
    ensures CartWellFormed(AddedTimes(items, p, n))
    ensures CartItemCount(AddedTimes(items, p, n)) == CartItemCount(items) + n
    ensures CartTotal(AddedTimes(items, p, n)) == CartTotal(items) + n * p.price
  {
    AddedTimesNew(items, p, n);
    var r := items + [CartItem(p, n)];
    assert CartWellFormed(r) by {
      forall i, j | 0 <= i < j < |r| ensures ItemId(r[i]) != ItemId(r[j]) {
        assert r[i] == items[i];
        if j < |items| { assert r[j] == items[j]; }
      }
    }
    AppendedLineTotals(items, p, n);
  }

  /** Adding `n >= 1` units of `p` keeps the cart well formed, raises the item
      count by `n` and the total by `n` times the price the cart charges. */
  lemma AddedTimesTotals(items: seq<CartItem>, p: Product, n: nat)
    requires CartWellFormed(items) && n >= 1
    ensures CartWellFormed(AddedTimes(items, p, n))
    ensures CartItemCount(AddedTimes(items, p, n)) == CartItemCount(items) + n
    ensures CartTotal(AddedTimes(items, p, n)) == CartTotal(items) + n * ChargedPrice(items, p)
  {
    var found := Find((item: CartItem) => ItemId(item) == p.id, items);
    if found.Some? {
      var k :| 0 <= k < |items| && items[k] == found.value && ItemId(items[k]) == p.id;
      AddedTimesExistingTotals(items, p, n, k);
    } else {
      AddedTimesNewTotals(items, p, n);
    }
  }

  /** When the cart has no line for the product, the cart total grows by
      exactly the total the screen shows; when it has one, by the quantity
      times the price stored on that line, which may differ from the listed
      price. */
  lemma ShownTotalMatchesCart(items: seq<CartItem>, p: Product, n: nat)
    requires CartWellFormed(items) && n >= 1
    ensures !HasLine(items, p.id) ==>
      CartTotal(AddedTimes(items, p, n)) == CartTotal(items) + TotalPrice(p, n)
    ensures HasLine(items, p.id) ==>
      exists k :: 0 <= k < |items| && ItemId(items[k]) == p.id &&
        CartTotal(AddedTimes(items, p, n)) == CartTotal(items) + TotalPrice(items[k].product, n)
  {
    var grown := CartTotal(AddedTimes(items, p, n));
    if HasLine(items, p.id) {
      var k :| 0 <= k < |items| && ItemId(items[k]) == p.id;
      AddedTimesExistingTotals(items, p, n, k);
      var c := items[k].product.price;
      assert grown == CartTotal(items) + n * c;
      assert TotalPrice(items[k].product, n) == c * n;
    } else {
      AddedTimesNewTotals(items, p, n);
      assert grown == CartTotal(items) + n * p.price;
      assert TotalPrice(p, n) == p.price * n;
    }
  }

  class ProductDetailScreen {
    var product: Option<Product>
    var quantity: int

    /** The quantity selector never shows less than 1. */
    predicate Valid()
      reads this
    {
      quantity >= 1
    }

    /** Nothing shown yet, quantity 1. */
    constructor ()
      ensures Valid()
      ensures product == None && quantity == 1
    {
      product := None;
      quantity := 1;
    }

    /** The lookup run when the route id or the catalogue changes. */
    method LookUp(productId: string, products: seq<Product>)
      modifies this
      ensures product == LookedUp(old(product), productId, products)
      ensures quantity == old(quantity)
    {
      if productId != "" && |products| > 0 {
        product := Find(HasId(productId), products);
      }
    }

    /** The minus button: one less, but never below 1. */
    method Decrement()
      modifies this
      ensures old(quantity) > 1 ==> quantity == old(quantity) - 1
      ensures old(quantity) <= 1 ==> quantity == 1
      ensures Valid()
      ensures product == old(product)
    {
      quantity := if quantity - 1 > 1 then quantity - 1 else 1;
    }

    /** The plus button: one more, without an upper bound. */
    method Increment()
      modifies this
      ensures quantity == old(quantity) + 1
      ensures old(Valid()) ==> Valid()
      ensures product == old(product)
    {
      quantity := quantity + 1;
    }

    /** `handleAddToCart`: calls the store's `addToCart` once per unit of the
        chosen quantity. */
    method HandleAddToCart(store: ShoppingStore)
      requires Valid() && product.Some?
      modifies store
      ensures store.cartItems == AddedTimes(old(store.cartItems), product.value, quantity)
      ensures store.favorites == old(store.favorites) && store.products == old(store.products)
      ensures store.categories == old(store.categories) && store.theme == old(store.theme)
      ensures old(store.Valid()) ==> store.Valid()
      ensures old(store.Valid()) ==>
        CartItemCount(store.cartItems) == CartItemCount(old(store.cartItems)) + quantity
      ensures old(store.Valid()) ==>
        CartTotal(store.cartItems) == CartTotal(old(store.cartItems)) + quantity * ChargedPrice(old(store.cartItems), product.value)
    {
      var p := product.value;
      var i := 0;
      while i < quantity
        invariant 0 <= i <= quantity
        invariant store.cartItems == AddedTimes(old(store.cartItems), p, i)
        invariant store.favorites == old(store.favorites) && store.products == old(store.products)
        invariant store.categories == old(store.categories) && store.theme == old(store.theme)
        invariant old(store.Valid()) ==> store.Valid()
        invariant old(store.Valid()) ==>
          CartItemCount(store.cartItems) == CartItemCount(old(store.cartItems)) + i
      {
        store.AddToCart(p);
        i := i + 1;
      }
      if old(store.Valid()) {
        AddedTimesTotals(old(store.cartItems), p, quantity);
      }
    }

    /** `handleToggleFavorite`: removes the product from the favourites when
        it is one, adds it otherwise; no other product's status changes. */
    method HandleToggleFavorite(store: ShoppingStore)
      requires product.Some?
      modifies store
      ensures old(IsFavorite(store.favorites, product.value.id)) ==>
        store.favorites == RemovedFromFavorites(old(store.favorites), product.value.id)
      ensures !old(IsFavorite(store.favorites, product.value.id)) ==>
        store.favorites == AddedToFavorites(old(store.favorites), product.value)
      ensures IsFavorite(store.favorites, product.value.id) <==>
        !old(IsFavorite(store.favorites, product.value.id))
      ensures forall id :: id != product.value.id ==>
        (IsFavorite(store.favorites, id) <==> old(IsFavorite(store.favorites, id)))
      ensures store.cartItems == old(store.cartItems) && store.products == old(store.products)
      ensures store.categories == old(store.categories) && store.theme == old(store.theme)
      ensures old(store.Valid()) ==> store.Valid()
    {
      var p := product.value;
      if IsFavorite(store.favorites, p.id) {
        store.RemoveFromFavorites(p.id);
      } else {
        store.AddToFavorites(p);
      }
    }
  }
}
