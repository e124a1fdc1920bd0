/** Delivery pricing, the cart page totals and the checkout pipeline of
    `menu/views.py`. Goods are priced in kopecks; the delivery table is in
    whole rubles, so a delivery price enters a total multiplied by 100. */
module Checkout {
  import opened Wrappers
  import opened Text
  import opened MenuModels
  import opened Cart

  // ---------------------------------------------------------------------
  // Delivery
  // ---------------------------------------------------------------------

  /** An entry of the delivery table (prices in rubles). */
  datatype City = City(name: string, basePrice: int, isMainCity: bool, pricePerKm: int)

  /** `DELIVERY_CITIES`. */
  const DeliveryCities: map<string, City> := map[
    "tula" := City("Тула", 100, true, 10),
    "moscow" := City("Москва", 300, false, 15),
    "other" := City("Другой город", 200, false, 20)]

  /** `calculate_delivery_price`: a key the table does not know is priced as
      `other`; the main city costs its base price whatever the distance; any
      other city costs its base price plus its rate per kilometre. */
  function CalculateDeliveryPrice(cityKey: string, distanceKm: int): (r: int)
    ensures cityKey == "tula" ==> r == 100
    ensures cityKey == "moscow" ==> r == 300 + 15 * distanceKm
    ensures cityKey != "tula" && cityKey != "moscow" ==> r == 200 + 20 * distanceKm
  {
    var key := if cityKey in DeliveryCities then cityKey else "other";
    var city := DeliveryCities[key];
    if city.isMainCity then city.basePrice
    else city.basePrice + distanceKm * city.pricePerKm
  }

  /** A city the table does not list is priced exactly as `other`. */
  lemma UnknownCityIsOther(cityKey: string, distanceKm: int)
    requires cityKey !in DeliveryCities
    ensures CalculateDeliveryPrice(cityKey, distanceKm) == CalculateDeliveryPrice("other", distanceKm)
  {
  }

  /** The main city is flat-rate: the distance plays no part. */
  lemma MainCityFlat(d1: int, d2: int)
    ensures CalculateDeliveryPrice("tula", d1) == CalculateDeliveryPrice("tula", d2) == 100
  {
  }

  /** A longer distance never costs less, in any city. */
  lemma DeliveryMonotone(cityKey: string, d1: int, d2: int)
    requires d1 <= d2
    ensures CalculateDeliveryPrice(cityKey, d1) <= CalculateDeliveryPrice(cityKey, d2)
  {
  }

  /** The prices the delivery tests expect. */
  lemma DeliveryExamples()
    ensures CalculateDeliveryPrice("tula", 5) == 100
    ensures CalculateDeliveryPrice("moscow", 10) == 450
    ensures CalculateDeliveryPrice("other", 5) == 300
    ensures CalculateDeliveryPrice("kazan", 5) == 300
  {
  }

  // ---------------------------------------------------------------------
  // Pricing a cart
  // ---------------------------------------------------------------------

  /** Price times quantity for each cart entry whose product can be
      ordered; the others are skipped. */
  function LineTotals(cart: CartMap, catalogue: Catalogue): (r: map<string, int>)
    ensures forall k :: k in r <==> k in cart && Orderable(catalogue, k)
    ensures forall k :: k in r ==> k in cart && Orderable(catalogue, k) && r[k] == catalogue[k].price * cart[k]
  {
    map k | k in cart && Orderable(catalogue, k) :: catalogue[k].price * cart[k]
  }

  /** The goods total of a cart: the sum of its line totals. */
  ghost function CartTotal(cart: CartMap, catalogue: Catalogue): int {
    SumValues(LineTotals(cart, catalogue))
  }

  /** The sum of the `total` fields of some lines. */
  function ItemsTotal(items: seq<LineItem>): int {
    if items == [] then 0 else ItemsTotal(items[..|items| - 1]) + items[|items| - 1].total
  }

  lemma ItemsTotalSnoc(items: seq<LineItem>, line: LineItem)
    ensures ItemsTotal(items + [line]) == ItemsTotal(items) + line.total
  {
    assert (items + [line])[..|items|] == items;
  }

  /** `line` is the priced line of an orderable entry of `cart`. */
  predicate IsLine(line: LineItem, cart: CartMap, catalogue: Catalogue) {
    line.id in cart && Orderable(catalogue, line.id)
    && line.title == catalogue[line.id].title
    && line.price == catalogue[line.id].price
    && line.quantity == cart[line.id]
    && line.total == line.price * line.quantity
  }

  /** `items` holds exactly one priced line for each orderable entry of
      `cart`, and nothing else. */
  predicate PricedLines(items: seq<LineItem>, cart: CartMap, catalogue: Catalogue) {
    && (forall i :: 0 <= i < |items| ==> IsLine(items[i], cart, catalogue))
    && (forall i, j :: 0 <= i < j < |items| ==> items[i].id != items[j].id)
    && (forall k :: k in cart && Orderable(catalogue, k) ==> exists i :: 0 <= i < |items| && items[i].id == k)
  }

  /** No lines remain exactly when no entry of the cart can be ordered. */
  lemma PricedLinesEmpty(items: seq<LineItem>, cart: CartMap, catalogue: Catalogue)
    requires PricedLines(items, cart, catalogue)
    ensures items == [] <==> forall k :: k in cart ==> !Orderable(catalogue, k)
  {
    if items != [] {
      assert IsLine(items[0], cart, catalogue);
    }
  }

  lemma LineTotalsRemove(rest: CartMap, catalogue: Catalogue, k: string)
    requires k in rest
    ensures SumValues(LineTotals(rest, catalogue))
      == (if Orderable(catalogue, k) then catalogue[k].price * rest[k] else 0)
         + SumValues(LineTotals(rest - {k}, catalogue))
  {
    var all, smaller := LineTotals(rest, catalogue), LineTotals(rest - {k}, catalogue);
    if Orderable(catalogue, k) {
      assert smaller == all - {k};
      SumValuesRemove(all, k);
    } else {
      assert smaller == all;
    }
  }

  /** The loop state of PriceCart: `items` prices the orderable entries of
      `cart` that are no longer in `rest`. */
  predicate PartlyPriced(items: seq<LineItem>, rest: CartMap, cart: CartMap, catalogue: Catalogue) {
    && rest.Keys <= cart.Keys
    && (forall k :: k in rest ==> rest[k] == cart[k])
    && (forall i :: 0 <= i < |items| ==> IsLine(items[i], cart, catalogue) && items[i].id !in rest)
    && (forall i, j :: 0 <= i < j < |items| ==> items[i].id != items[j].id)
    && (forall k :: k in cart && k !in rest && Orderable(catalogue, k) ==>
          exists i :: 0 <= i < |items| && items[i].id == k)
  }

  /** Taking one entry out of `rest` and pricing it if it can be ordered
      keeps the loop state. */
  lemma PriceStep(items: seq<LineItem>, rest: CartMap, cart: CartMap, catalogue: Catalogue, k: string)
    requires PartlyPriced(items, rest, cart, catalogue) && k in rest
    ensures Orderable(catalogue, k) ==>
      PartlyPriced(items + [LineItem(k, catalogue[k].title, catalogue[k].price, rest[k], catalogue[k].price * rest[k])],
                   rest - {k}, cart, catalogue)
    ensures !Orderable(catalogue, k) ==> PartlyPriced(items, rest - {k}, cart, catalogue)
  {
    if Orderable(catalogue, k) {
      var line := LineItem(k, catalogue[k].title, catalogue[k].price, rest[k], catalogue[k].price * rest[k]);
      var next := items + [line];
      assert next[|items|] == line;
      assert forall i :: 0 <= i < |items| ==> next[i] == items[i];
      forall k' | k' in cart && k' !in rest - {k} && Orderable(catalogue, k')
        ensures exists i :: 0 <= i < |next| && next[i].id == k'
      {
        if k' == k {
          assert next[|items|].id == k';
        } else {
          var i :| 0 <= i < |items| && items[i].id == k';
          assert next[i].id == k';
        }
      }
    }
  }

  /** The whole loop state of PriceCart: the lines so far, their running
      total, and the part of the goods total still to come from `rest`. */
  ghost predicate PriceLoop(items: seq<LineItem>, total: int, rest: CartMap, cart: CartMap, catalogue: Catalogue) {
    && PartlyPriced(items, rest, cart, catalogue)
    && total == ItemsTotal(items)
    && total + SumValues(LineTotals(rest, catalogue)) == CartTotal(cart, catalogue)
  }

  lemma PriceLoopStep(items: seq<LineItem>, total: int, rest: CartMap, cart: CartMap, catalogue: Catalogue, k: string)
    requires PriceLoop(items, total, rest, cart, catalogue) && k in rest
    ensures Orderable(catalogue, k) ==>
      var line := LineItem(k, catalogue[k].title, catalogue[k].price, rest[k], catalogue[k].price * rest[k]);
      PriceLoop(items + [line], total + line.total, rest - {k}, cart, catalogue)
    ensures !Orderable(catalogue, k) ==> PriceLoop(items, total, rest - {k}, cart, catalogue)
  {
    LineTotalsRemove(rest, catalogue, k);
    PriceStep(items, rest, cart, catalogue, k);
    if Orderable(catalogue, k) {
      var line := LineItem(k, catalogue[k].title, catalogue[k].price, rest[k], catalogue[k].price * rest[k]);
      ItemsTotalSnoc(items, line);
    }
  }

  lemma PricedWhenDone(items: seq<LineItem>, total: int, cart: CartMap, catalogue: Catalogue)
    requires PriceLoop(items, total, map[], cart, catalogue)
    ensures PricedLines(items, cart, catalogue)
    ensures total == ItemsTotal(items) && total == CartTotal(cart, catalogue)
  {
    assert LineTotals(map[], catalogue) == map[];
  }

  /** Prices the cart entry by entry, as the loops of `cart_view` and
      `create_order` do: unavailable products are skipped. */
  method PriceCart(cart: CartMap, catalogue: Catalogue) returns (items: seq<LineItem>, total: int)
    ensures PricedLines(items, cart, catalogue)
    ensures total == ItemsTotal(items) && total == CartTotal(cart, catalogue)
  {
    items := [];
    total := 0;
    var rest := cart;
    while rest != map[]
      invariant PriceLoop(items, total, rest, cart, catalogue)
      decreases |rest|
    {
      var k :| k in rest;
      PriceLoopStep(items, total, rest, cart, catalogue, k);
      if Orderable(catalogue, k) {
        var line := LineItem(k, catalogue[k].title, catalogue[k].price, rest[k], catalogue[k].price * rest[k]);
        items := items + [line];
        total := total + line.total;
      }
      rest := rest - {k};
    }
    PricedWhenDone(items, total, cart, catalogue);
  }

  // ---------------------------------------------------------------------
  // The cart page
  // ---------------------------------------------------------------------

  /** What `cart_view` puts in the template context. */
  datatype CartSummary = CartSummary(
    items: seq<LineItem>,
    totalPrice: int,
    cartCount: int,
    deliveryCity: string,
    deliveryDistance: int,
    deliveryPrice: int,
    finalTotal: int)

  /** The entries of `cart` whose product can still be ordered. */
  function Kept(cart: CartMap, catalogue: Catalogue): (r: CartMap)
    ensures r.Keys <= cart.Keys
    ensures forall k :: k in r <==> k in cart && Orderable(catalogue, k)
    ensures forall k :: k in r ==> r[k] == cart[k]
  {
    map k | k in cart && Orderable(catalogue, k) :: cart[k]
  }

  datatype ViewFailure = DictChangedSize

  /** `cart_view` as written: a product that is missing or unavailable is
      popped from `cart` while `cart.items()` is being iterated, so the next
      step of the iteration raises `RuntimeError` and the page fails. When
      every entry can be ordered the goods total is computed. */
  ghost function CartViewAsWritten(cart: CartMap, catalogue: Catalogue): (r: Result<int, ViewFailure>)
    ensures r.Err? <==> exists k :: k in cart && !Orderable(catalogue, k)
    ensures r.Ok? ==> r.value == CartTotal(cart, catalogue)
  {
    if exists k :: k in cart && !Orderable(catalogue, k) then Err(DictChangedSize)
    else Ok(CartTotal(cart, catalogue))
  }

  /** A cart holding a product the catalogue no longer has brings the cart
      page down, where the intended behaviour is to drop that line. */
  lemma CartViewAsWrittenFails()
    ensures CartViewAsWritten(map["1" := 2], map[]) == Err(DictChangedSize)
  {
    assert "1" in map["1" := 2] && !Orderable(map[], "1");
  }

  /** `cart_view` with missing products dropped from the session cart and
      the page still shown. The goods total, the count of what is kept, the
      delivery choice read from the session (defaults `tula` and 0) and the
      final total are returned. */
  method CartView(session: Session, catalogue: Catalogue) returns (v: CartSummary)
    modifies session
    ensures PricedLines(v.items, old(session.CartOf()), catalogue)
    ensures v.totalPrice == ItemsTotal(v.items) && v.totalPrice == CartTotal(old(session.CartOf()), catalogue)
    ensures session.CartOf() == Kept(old(session.CartOf()), catalogue)
    ensures (forall k :: k in old(session.CartOf()) ==> Orderable(catalogue, k)) ==> session.stored == old(session.stored)
    ensures v.cartCount == SumValues(session.CartOf())
    ensures v.deliveryCity == old(session.deliveryCity).GetOr("tula")
    ensures v.deliveryDistance == old(session.deliveryDistance).GetOr(0)
    ensures v.deliveryPrice == CalculateDeliveryPrice(v.deliveryCity, v.deliveryDistance)
    ensures v.finalTotal == v.totalPrice + 100 * v.deliveryPrice
    ensures CartViewAsWritten(old(session.CartOf()), catalogue).Ok? ==>
      CartViewAsWritten(old(session.CartOf()), catalogue).value == v.totalPrice
    ensures session.deliveryCity == old(session.deliveryCity) && session.deliveryDistance == old(session.deliveryDistance)
    ensures session.lastOrder == old(session.lastOrder)
  {
    var cart := session.CartOf();
    var city := session.deliveryCity.GetOr("tula");
    var distance := session.deliveryDistance.GetOr(0);
    var delivery := CalculateDeliveryPrice(city, distance);
    var items, total := PriceCart(cart, catalogue);
    var kept := Kept(cart, catalogue);
    var count := CountOf(kept);
    if kept != cart {
      session.stored := Some(kept);
    } else {
      assert forall k :: k in cart ==> Orderable(catalogue, k) ==> k in kept;
    }
    v := CartSummary(items, total, count, city, distance, delivery, total + 100 * delivery);
  }

  // ---------------------------------------------------------------------
  // Checkout
  // ---------------------------------------------------------------------

  /** The posted checkout form; an absent field is `None`. */
  datatype CheckoutForm = CheckoutForm(
    deliveryMethod: Option<string>,
    deliveryCity: Option<string>,
    deliveryDistance: Option<int>,
    customerName: Option<string>,
    customerPhone: Option<string>,
    customerAddress: Option<string>,
    paymentMethod: Option<string>)

  /** The field values `create_order` works with, defaults filled in and
      name, phone and address stripped. */
  function MethodOf(f: CheckoutForm): string { f.deliveryMethod.GetOr("pickup") }
  function CityOf(f: CheckoutForm): string { f.deliveryCity.GetOr("") }
  function DistanceOf(f: CheckoutForm): int { f.deliveryDistance.GetOr(0) }
  function NameOf(f: CheckoutForm): string { Strip(f.customerName.GetOr("")) }
  function PhoneOf(f: CheckoutForm): string { Strip(f.customerPhone.GetOr("")) }
  function AddressOf(f: CheckoutForm): string { Strip(f.customerAddress.GetOr("")) }
  function PaymentOf(f: CheckoutForm): string { f.paymentMethod.GetOr("cash") }

  datatype CheckoutError =
    | EmptyCart
    | NotPost
    | NameMissing
    | NameTooShort
    | PhoneInvalid
    | AddressMissing
    | AddressTooShort
    | NothingAvailable
    | SaveFailed(reason: PhoneError)

  /** The checks `create_order` makes before pricing anything, in its order.
      `validPhone` is the site's phone validator, applied to the stripped
      phone. */
  function ValidateCheckout(cart: CartMap, isPost: bool, form: CheckoutForm, validPhone: string -> bool)
    : (r: Option<CheckoutError>)
    ensures r == Some(EmptyCart) <==> cart == map[]
    ensures r == Some(NotPost) <==> cart != map[] && !isPost
    ensures r == Some(NameMissing) <==> cart != map[] && isPost && NameOf(form) == []
    ensures r == Some(NameTooShort) <==> cart != map[] && isPost && |NameOf(form)| == 1
    ensures r == Some(PhoneInvalid) <==> cart != map[] && isPost && |NameOf(form)| >= 2 && !validPhone(PhoneOf(form))
    ensures r == Some(AddressMissing) <==>
      cart != map[] && isPost && |NameOf(form)| >= 2 && validPhone(PhoneOf(form))
      && MethodOf(form) == "delivery" && AddressOf(form) == []
    ensures r == Some(AddressTooShort) <==>
      cart != map[] && isPost && |NameOf(form)| >= 2 && validPhone(PhoneOf(form))
      && MethodOf(form) == "delivery" && 1 <= |AddressOf(form)| < 10
    ensures r == None <==>
      cart != map[] && isPost && |NameOf(form)| >= 2 && validPhone(PhoneOf(form))
      && (MethodOf(form) == "delivery" ==> |AddressOf(form)| >= 10)
  {
    var name, address := NameOf(form), AddressOf(form);
    if cart == map[] then Some(EmptyCart)
    else if !isPost then Some(NotPost)
    else if name == [] then Some(NameMissing)
    else if |name| < 2 then Some(NameTooShort)
    else if !validPhone(PhoneOf(form)) then Some(PhoneInvalid)
    else if MethodOf(form) == "delivery" && address == [] then Some(AddressMissing)
    else if MethodOf(form) == "delivery" && |address| < 10 then Some(AddressTooShort)
    else None
  }

  /** Delivery is charged only for the delivery method; pickup is free. */
  function CheckoutDeliveryPrice(form: CheckoutForm): (r: int)
    ensures MethodOf(form) != "delivery" ==> r == 0
    ensures MethodOf(form) == "delivery" ==> r == CalculateDeliveryPrice(CityOf(form), DistanceOf(form))
  {
    if MethodOf(form) == "delivery" then CalculateDeliveryPrice(CityOf(form), DistanceOf(form)) else 0
  }

  /** The order `create_order` stores for a validated form; the phone is
      stored as `formatPhone` renders it, money in kopecks. */
  function OrderFor(form: CheckoutForm, formatPhone: string -> string, itemsTotal: int): (o: Order)
    ensures o.deliveryPrice == 100 * CheckoutDeliveryPrice(form)
    ensures o.totalPrice == itemsTotal + o.deliveryPrice
    ensures o.customerName == NameOf(form) && o.customerPhone == formatPhone(PhoneOf(form))
  {
    var delivery := 100 * CheckoutDeliveryPrice(form);
    Order(NameOf(form), formatPhone(PhoneOf(form)), AddressOf(form), PaymentOf(form),
          MethodOf(form), CityOf(form), DistanceOf(form), delivery, itemsTotal + delivery)
  }

  /** What `create_order` answers for a cart and a submitted form: the
      first failed check, then "nothing available" when no entry can be
      ordered, then the model's own phone check; with every check passed and
      something orderable, the order is placed exactly when `save` accepts
      it, and `save`'s error is reported otherwise. A placed order prices every
      orderable entry, stores the form's data, and adds the delivery price
      to the goods total. */
  ghost predicate CheckoutOutcome(cart: CartMap, catalogue: Catalogue, isPost: bool, form: CheckoutForm,
                                  validPhone: string -> bool, formatPhone: string -> string,
                                  r: Result<LastOrder, CheckoutError>)
  {
    && (ValidateCheckout(cart, isPost, form, validPhone).Some? ==>
          r == Err(ValidateCheckout(cart, isPost, form, validPhone).value))
    && (ValidateCheckout(cart, isPost, form, validPhone).None? && (forall k :: k in cart ==> !Orderable(catalogue, k)) ==>
          r == Err(NothingAvailable))
    && (ValidateCheckout(cart, isPost, form, validPhone).None? && (exists k :: k in cart && Orderable(catalogue, k)) ==>
          var saved := SaveOrder(OrderFor(form, formatPhone, CartTotal(cart, catalogue)));
          (saved.Ok? ==> r.Ok?) && (saved.Err? ==> r == Err(SaveFailed(saved.error))))
    && (r.Err? && r.error.SaveFailed? ==> CleanPhone(formatPhone(PhoneOf(form))) == Some(r.error.reason))
    && (r.Ok? ==>
          && ValidateCheckout(cart, isPost, form, validPhone).None?
          && PricedLines(r.value.items, cart, catalogue)
          && r.value.items != []
          && r.value.itemsTotal == ItemsTotal(r.value.items)
          && r.value.itemsTotal == CartTotal(cart, catalogue)
          && r.value.order == OrderFor(form, formatPhone, r.value.itemsTotal)
          && SaveOrder(r.value.order).Ok?
          && r.value.finalTotal == r.value.itemsTotal + 100 * CheckoutDeliveryPrice(form))
  }

  /** The checks and pricing of `create_order`, on the cart as read from
      the session; nothing is changed. */
  method PlaceOrder(cart: CartMap, catalogue: Catalogue, isPost: bool, form: CheckoutForm,
                    validPhone: string -> bool, formatPhone: string -> string)
    returns (r: Result<LastOrder, CheckoutError>)
    ensures CheckoutOutcome(cart, catalogue, isPost, form, validPhone, formatPhone, r)
  {
    var failure := ValidateCheckout(cart, isPost, form, validPhone);
    if failure.Some? {
      return Err(failure.value);
    }
    var items, total := PriceCart(cart, catalogue);
    PricedLinesEmpty(items, cart, catalogue);
    if items == [] {
      return Err(NothingAvailable);
    }
    var order := OrderFor(form, formatPhone, total);
    var saved := SaveOrder(order);
    if saved.Err? {
      return Err(SaveFailed(saved.error));
    }
    r := Ok(LastOrder(order, items, total, order.totalPrice));
  }

  /** The lines of a placed order as `create_order` stores them: one
      `OrderItem` per priced line, linked to its product and saved, so the
      product's title and price are copied at that moment and each stored
      line's total is the priced line's total. */
  method StoreOrderItems(items: seq<LineItem>, cart: CartMap, catalogue: Catalogue) returns (stored: seq<OrderItem>)
    requires forall i :: 0 <= i < |items| ==> IsLine(items[i], cart, catalogue)
    ensures |stored| == |items|
    ensures forall i :: 0 <= i < |items| ==>
      && fresh(stored[i]) && items[i].id in catalogue
      && stored[i].product == Some(catalogue[items[i].id])
      && stored[i].productTitle == items[i].title && stored[i].productPrice == items[i].price
      && stored[i].quantity == items[i].quantity
      && stored[i].GetTotal() == items[i].total
  {
    stored := [];
    var i := 0;
    while i < |items|
      invariant 0 <= i <= |items| && |stored| == i
      invariant forall j :: 0 <= j < i ==>
        && fresh(stored[j]) && items[j].id in catalogue
        && stored[j].product == Some(catalogue[items[j].id])
        && stored[j].productTitle == items[j].title && stored[j].productPrice == items[j].price
        && stored[j].quantity == items[j].quantity
        && stored[j].GetTotal() == items[j].total
    {
      var line := items[i];
      assert IsLine(line, cart, catalogue);
      var product := catalogue[line.id];
      var item := new OrderItem(Some(product), product.title, product.price, line.quantity);
      item.Save();
      stored := stored + [item];
      i := i + 1;
    }
  }

  /** `create_order`. A failed check, a cart with nothing orderable left, or
      an order the model's `clean` refuses leaves the session as it was; a
      placed order is recorded as the session's last order and the cart is
      removed, and its lines are stored as order items. `validPhone` and
      `formatPhone` stand for the site's phone helpers. */
  method CreateOrder(session: Session, catalogue: Catalogue, isPost: bool, form: CheckoutForm,
                     validPhone: string -> bool, formatPhone: string -> string)
    returns (r: Result<LastOrder, CheckoutError>, orderItems: seq<OrderItem>)
    modifies session
    ensures CheckoutOutcome(old(session.CartOf()), catalogue, isPost, form, validPhone, formatPhone, r)
    ensures session.deliveryCity == old(session.deliveryCity) && session.deliveryDistance == old(session.deliveryDistance)
    ensures r.Err? ==> session.stored == old(session.stored) && session.lastOrder == old(session.lastOrder) && orderItems == []
    ensures r.Ok? ==> session.stored == None && session.lastOrder == Some(r.value)
    ensures r.Ok? ==> |orderItems| == |r.value.items|
    ensures r.Ok? ==> forall i :: 0 <= i < |orderItems| ==>
      fresh(orderItems[i]) && orderItems[i].GetTotal() == r.value.items[i].total
  {
    var cart := session.CartOf();
    r := PlaceOrder(cart, catalogue, isPost, form, validPhone, formatPhone);
    assert cart == old(session.CartOf());
    orderItems := [];
    if r.Ok? {
      assert PricedLines(r.value.items, cart, catalogue);
      session.RecordOrder(r.value);
      orderItems := StoreOrderItems(r.value.items, cart, catalogue);
    }
  }

  /** A placed order's final total is the goods total plus the delivery
      price, and it names only products that could be ordered. */
  lemma PlacedOrderTotals(cart: CartMap, catalogue: Catalogue, isPost: bool, form: CheckoutForm,
                          validPhone: string -> bool, formatPhone: string -> string, placed: LastOrder)
    requires CheckoutOutcome(cart, catalogue, isPost, form, validPhone, formatPhone, Ok(placed))
    ensures placed.finalTotal == placed.order.totalPrice
    ensures placed.itemsTotal == ItemsTotal(placed.items)
    ensures forall i :: 0 <= i < |placed.items| ==> placed.items[i].id in cart && Orderable(catalogue, placed.items[i].id)
  {
    assert placed.finalTotal == placed.order.totalPrice by {
      assert placed.order == OrderFor(form, formatPhone, placed.itemsTotal);
    }
    assert forall i :: 0 <= i < |placed.items| ==> IsLine(placed.items[i], cart, catalogue) by {
      assert PricedLines(placed.items, cart, catalogue);
    }
  }
}
