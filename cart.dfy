/** The session cart: a map from product-id string to quantity, kept in
    the visitor's session under the key `cart`, with the four operations
    that change it and the count the site shows beside the cart icon. */
module Cart {
  import opened Wrappers
  import opened MenuModels

  /** Product id (as the string the session stores) to quantity. */
  type CartMap = map<string, int>

  /** The products the database holds, by id. */
  type Catalogue = map<string, Product>

  /** `Product.objects.get(id=..., is_available=True)` succeeds. */
  predicate Orderable(catalogue: Catalogue, id: string) {
    id in catalogue && catalogue[id].available
  }

  // ---------------------------------------------------------------------
  // Sum of the quantities
  // ---------------------------------------------------------------------

  /** `sum(cart.values())`. */
  ghost function SumValues(m: map<string, int>): int
    decreases |m|
  {
    if m == map[] then 0
    else
      var k :| k in m;
      m[k] + SumValues(m - {k})
  }

  /** The sum can be taken by removing any key first, whichever key the
      definition happens to pick. */
  lemma {:induction false} SumValuesRemove(m: map<string, int>, k: string)
    requires k in m
    ensures SumValues(m) == m[k] + SumValues(m - {k})
    decreases |m|
  {
    var j :| j in m && SumValues(m) == m[j] + SumValues(m - {j});
    if j != k {
      var mj, mk := m - {j}, m - {k};
      assert |mj| < |m| && |mk| < |m| by {
        assert mj.Keys < m.Keys && mk.Keys < m.Keys;
      }
      SumValuesRemove(mj, k);
      SumValuesRemove(mk, j);
      assert mj - {k} == mk - {j};
    }
  }

  /** Setting one entry changes the sum by the difference. */
  lemma SumValuesUpdate(m: map<string, int>, k: string, v: int)
    ensures SumValues(m[k := v]) == SumValues(m - {k}) + v
    ensures k in m ==> SumValues(m[k := v]) == SumValues(m) - m[k] + v
  {
    SumValuesRemove(m[k := v], k);
    assert m[k := v] - {k} == m - {k};
    if k in m {
      SumValuesRemove(m, k);
    }
  }

  /** Every quantity is at least one. This holds of every cart the site
      writes: entries are created at 1, incremented, or set to a positive
      quantity. */
  predicate Valid(cart: CartMap) {
    forall k :: k in cart ==> cart[k] >= 1
  }

  /** In a valid cart the count is at least the number of entries, so it is
      zero exactly when the cart is empty. */
  lemma {:induction false} CountOfValid(cart: CartMap)
    requires Valid(cart)
    ensures SumValues(cart) >= |cart|
    ensures SumValues(cart) == 0 <==> cart == map[]
    decreases |cart|
  {
    if cart != map[] {
      var k :| k in cart;
      SumValuesRemove(cart, k);
      CountOfValid(cart - {k});
    }
  }

  /** The count shown to the visitor, computed over the cart's entries. */
  method CountOf(cart: CartMap) returns (n: int)
    ensures n == SumValues(cart)
  {
    n := 0;
    var rest := cart;
    while rest != map[]
      invariant n + SumValues(rest) == SumValues(cart)
      decreases |rest|
    {
      var k :| k in rest;
      SumValuesRemove(rest, k);
      n := n + rest[k];
      rest := rest - {k};
    }
  }

  // ---------------------------------------------------------------------
  // The cart operations on values
  // ---------------------------------------------------------------------

  /** `add_to_cart`'s change: a new id enters at 1, a present one goes up
      by one. */
  function Added(cart: CartMap, id: string): (r: CartMap)
    ensures id in r && r.Keys == cart.Keys + {id}
    ensures r[id] == if id in cart then cart[id] + 1 else 1
    ensures forall k :: k in cart && k != id ==> r[k] == cart[k]
  {
    cart[id := if id in cart then cart[id] + 1 else 1]
  }

  /** Adding raises the count by exactly one and keeps a cart valid. */
  lemma AddedCount(cart: CartMap, id: string)
    ensures SumValues(Added(cart, id)) == SumValues(cart) + 1
    ensures Valid(cart) ==> Valid(Added(cart, id))
  {
    SumValuesUpdate(cart, id, if id in cart then cart[id] + 1 else 1);
    if id !in cart {
      assert cart - {id} == cart;
    }
  }

  /** `update_cart`'s change: a positive quantity is stored as given,
      anything else deletes the entry. */
  function Updated(cart: CartMap, id: string, quantity: int): (r: CartMap)
    ensures quantity > 0 ==> id in r && r[id] == quantity
    ensures quantity <= 0 ==> id !in r
    ensures r.Keys - {id} == cart.Keys - {id}
    ensures forall k :: k in cart && k != id ==> k in r && r[k] == cart[k]
  {
    if quantity > 0 then cart[id := quantity] else cart - {id}
  }

  /** Updating keeps a cart valid and moves the count by the change in the
      one entry. */
  lemma UpdatedCount(cart: CartMap, id: string, quantity: int)
    ensures Valid(cart) ==> Valid(Updated(cart, id, quantity))
    ensures SumValues(Updated(cart, id, quantity))
      == SumValues(cart - {id}) + (if quantity > 0 then quantity else 0)
  {
    if quantity > 0 {
      SumValuesUpdate(cart, id, quantity);
    }
  }

  /** Removing an entry takes its quantity off the count. */
  lemma RemovedCount(cart: CartMap, id: string)
    requires id in cart
    ensures SumValues(cart - {id}) == SumValues(cart) - cart[id]
  {
    SumValuesRemove(cart, id);
  }

  datatype CartError = ProductUnavailable

  /** What a request of `update_cart` ends in when it is served by the code
      as written. */
  datatype UpdateFailure = Unavailable | UnboundCart

  /** `update_cart` as written: the cart is read inside `if request.method
      == 'POST'`, but `sum(cart.values())` runs after that block, so any
      other method raises `UnboundLocalError` before the redirect. The
      result is the session's new `cart` entry. */
  function UpdateCartAsWritten(stored: Option<CartMap>, catalogue: Catalogue, id: string,
                               isPost: bool, quantity: Option<int>): (r: Result<Option<CartMap>, UpdateFailure>)
    ensures !isPost ==> r == Err(UnboundCart)
    ensures isPost && !Orderable(catalogue, id) ==> r == Err(Unavailable)
    ensures isPost && Orderable(catalogue, id) ==>
      r == Ok(Some(Updated(stored.GetOr(map[]), id, quantity.GetOr(1))))
  {
    if !isPost then Err(UnboundCart)
    else if !Orderable(catalogue, id) then Err(Unavailable)
    else Ok(Some(Updated(stored.GetOr(map[]), id, quantity.GetOr(1))))
  }

  // ---------------------------------------------------------------------
  // The session
  // ---------------------------------------------------------------------

  /** One priced line of the cart: the product's id, title and unit price
      (kopecks), the quantity, and price times quantity. */
  datatype LineItem = LineItem(id: string, title: string, price: int, quantity: int, total: int)

  /** The `last_order` entry a successful checkout leaves in the session:
      the stored order, its lines, the goods total and the final total. */
  datatype LastOrder = LastOrder(order: Order, items: seq<LineItem>, itemsTotal: int, finalTotal: int)

  /** The visitor's session: the `cart` entry (absent until something is
      added), the delivery choice `cart_view` reads, and the summary of the
      last order placed. */
  class Session {
    var stored: Option<CartMap>
    var deliveryCity: Option<string>
    var deliveryDistance: Option<int>
    var lastOrder: Option<LastOrder>

    constructor ()
      ensures stored == None && deliveryCity == None && deliveryDistance == None && lastOrder == None
    {
      stored := None;
      deliveryCity := None;
      deliveryDistance := None;
      lastOrder := None;
    }

    /** What a placed order leaves in the session: the order is remembered
        and the cart is gone. */
    method RecordOrder(placed: LastOrder)
      modifies this
      ensures stored == None && lastOrder == Some(placed)
      ensures deliveryCity == old(deliveryCity) && deliveryDistance == old(deliveryDistance)
    {
      lastOrder := Some(placed);
      stored := None;
    }

    /** `request.session.get('cart', {})`. */
    function CartOf(): (c: CartMap)
      reads this
      ensures stored.None? ==> c == map[]
      ensures stored.Some? ==> c == stored.value
    {
      stored.GetOr(map[])
    }

    /** `add_to_cart`: an available product is added and the new count is
        returned; otherwise the cart is left alone. */
    method AddToCart(catalogue: Catalogue, id: string) returns (r: Result<int, CartError>)
      modifies this
      ensures deliveryCity == old(deliveryCity) && deliveryDistance == old(deliveryDistance)
      ensures lastOrder == old(lastOrder)
      ensures !Orderable(catalogue, id) ==> r == Err(ProductUnavailable) && stored == old(stored)
      ensures Orderable(catalogue, id) ==> stored == Some(Added(old(CartOf()), id))
      ensures Orderable(catalogue, id) ==> r == Ok(SumValues(CartOf())) && SumValues(CartOf()) == old(SumValues(CartOf())) + 1
      ensures Valid(old(CartOf())) ==> Valid(CartOf())
    {
      if !Orderable(catalogue, id) {
        return Err(ProductUnavailable);
      }
      var cart := CartOf();
      if id in cart {
        cart := cart[id := cart[id] + 1];
      } else {
        cart := cart[id := 1];
      }
      stored := Some(cart);
      AddedCount(old(CartOf()), id);
      var n := CountOf(cart);
      r := Ok(n);
    }

    /** `remove_from_cart`: the entry goes if it is there (and only then is
        the session written); the new count is returned. */
    method RemoveFromCart(id: string) returns (n: int)
      modifies this
      ensures deliveryCity == old(deliveryCity) && deliveryDistance == old(deliveryDistance)
      ensures lastOrder == old(lastOrder)
      ensures id in old(CartOf()) ==> stored == Some(old(CartOf()) - {id})
      ensures id !in old(CartOf()) ==> stored == old(stored)
      ensures CartOf() == old(CartOf()) - {id}
      ensures n == SumValues(CartOf())
      ensures id in old(CartOf()) ==> n == old(SumValues(CartOf())) - old(CartOf())[id]
      ensures Valid(old(CartOf())) ==> Valid(CartOf())
    {
      var cart := CartOf();
      if id in cart {
        RemovedCount(cart, id);
        cart := cart - {id};
        stored := Some(cart);
      } else {
        assert cart - {id} == cart;
      }
      n := CountOf(cart);
    }

    /** `update_cart`, with a request other than POST answered by a plain
        redirect (see UpdateCartAsWritten for what the code does instead).
        `quantity` is the posted field, absent meaning 1. */
    method UpdateCart(catalogue: Catalogue, id: string, isPost: bool, quantity: Option<int>)
      returns (r: Option<CartError>)
      modifies this
      ensures deliveryCity == old(deliveryCity) && deliveryDistance == old(deliveryDistance)
      ensures lastOrder == old(lastOrder)
      ensures !isPost ==> r == None && stored == old(stored)
      ensures isPost && !Orderable(catalogue, id) ==> r == Some(ProductUnavailable) && stored == old(stored)
      ensures isPost && Orderable(catalogue, id) ==>
        r == None && stored == Some(Updated(old(CartOf()), id, quantity.GetOr(1)))
      ensures isPost ==> (r == None <==> UpdateCartAsWritten(old(stored), catalogue, id, isPost, quantity) == Ok(stored))
      ensures Valid(old(CartOf())) ==> Valid(CartOf())
    {
      r := None;
      if isPost {
        var q := quantity.GetOr(1);
        var cart := CartOf();
        if !Orderable(catalogue, id) {
          return Some(ProductUnavailable);
        }
        if q > 0 {
          cart := cart[id := q];
        } else if id in cart {
          cart := cart - {id};
        } else {
          assert cart - {id} == cart;
        }
        stored := Some(cart);
        UpdatedCount(old(CartOf()), id, q);
      }
    }

    /** `clear_cart`: the `cart` entry is deleted, so the cart then reads as
        empty. */
    method ClearCart()
      modifies this
      ensures stored == None && CartOf() == map[]
      ensures deliveryCity == old(deliveryCity) && deliveryDistance == old(deliveryDistance)
      ensures lastOrder == old(lastOrder)
    {
      stored := None;
    }
  }
}
