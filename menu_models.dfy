/** The menu's stored entities: products, orders with their phone rule,
    order items with their price snapshot. Prices are integer kopecks (the
    source keeps them as decimals with two places). */
module MenuModels {
  import opened Wrappers
  import opened Text

  /** A product of the catalogue, with the fields the core reads. */
  datatype Product = Product(
    title: string,
    price: int,
    available: bool,
    ingredients: string,
    calories: Option<int>,
    protein: string,
    carbs: string)

  // ---------------------------------------------------------------------
  // Order.clean: the phone rule
  // ---------------------------------------------------------------------

  /** The characters of the pattern `[\s\-()+]` that `Order.clean` deletes. */
  predicate IsPhoneSeparator(c: char) {
    IsSpace(c) || c == '-' || c == '(' || c == ')' || c == '+'
  }

  /** `re.sub(r'[\s\-()+]', '', phone)`. */
  function StripSeparators(s: string): (r: string)
    ensures |r| <= |s|
    ensures forall i :: 0 <= i < |r| ==> !IsPhoneSeparator(r[i])
  {
    if s == [] then []
    else if IsPhoneSeparator(s[0]) then StripSeparators(s[1..])
    else [s[0]] + StripSeparators(s[1..])
  }

  /** A phone is acceptable when, once separators are removed, 10 or 11
      characters remain and all of them are digits. */
  predicate PhoneDigitsValid(phone: string) {
    var c := StripSeparators(phone);
    (|c| == 10 || |c| == 11) && AllDigits(c)
  }

  datatype PhoneError = WrongLength | NotDigits

  /** `Order.clean`: an empty phone is not checked; otherwise the length test
      runs first and the digit test second. */
  function CleanPhone(phone: string): (r: Option<PhoneError>)
    ensures phone == [] ==> r == None
    ensures r == None <==> phone == [] || PhoneDigitsValid(phone)
    ensures r == Some(WrongLength) <==> phone != [] && |StripSeparators(phone)| != 10 && |StripSeparators(phone)| != 11
    ensures r == Some(NotDigits) ==> |StripSeparators(phone)| == 10 || |StripSeparators(phone)| == 11
  {
    if phone == [] then None
    else
      var cleaned := StripSeparators(phone);
      if |cleaned| != 10 && |cleaned| != 11 then Some(WrongLength)
      else if !AllDigits(cleaned) then Some(NotDigits)
      else None
  }

  /** Removing separators twice removes nothing more. */
  lemma {:induction false} StripSeparatorsIdempotent(s: string)
    ensures StripSeparators(StripSeparators(s)) == StripSeparators(s)
  {
    if s != [] {
      StripSeparatorsIdempotent(s[1..]);
      if !IsPhoneSeparator(s[0]) {
        var t := StripSeparators(s[1..]);
        assert ([s[0]] + t)[1..] == t;
      }
    }
  }

  /** Formatting characters never change the verdict: a phone and the same
      phone with its separators removed are judged alike. */
  lemma CleanPhoneIgnoresFormatting(phone: string)
    requires StripSeparators(phone) != []
    ensures CleanPhone(phone) == CleanPhone(StripSeparators(phone))
  {
    StripSeparatorsIdempotent(phone);
  }

  /** Separators are removed piece by piece. */
  lemma {:induction false} StripSeparatorsConcat(a: string, b: string)
    ensures StripSeparators(a + b) == StripSeparators(a) + StripSeparators(b)
  {
    if a == [] {
      assert a + b == b;
    } else {
      assert (a + b)[1..] == a[1..] + b;
      StripSeparatorsConcat(a[1..], b);
    }
  }

  /** Text with no separators in it is left as it is. */
  lemma {:induction false} StripSeparatorsPlain(s: string)
    requires forall i :: 0 <= i < |s| ==> !IsPhoneSeparator(s[i])
    ensures StripSeparators(s) == s
  {
    if s != [] {
      StripSeparatorsPlain(s[1..]);
    }
  }

  /** Text made only of separators disappears. */
  lemma {:induction false} StripSeparatorsOnlySeparators(s: string)
    requires forall i :: 0 <= i < |s| ==> IsPhoneSeparator(s[i])
    ensures StripSeparators(s) == []
  {
    if s != [] {
      StripSeparatorsOnlySeparators(s[1..]);
    }
  }

  /** Removing separators from `a + b` when `b` is made only of separators. */
  lemma StripSeparatorsThenSeparators(a: string, b: string)
    requires forall i :: 0 <= i < |b| ==> IsPhoneSeparator(b[i])
    ensures StripSeparators(a + b) == StripSeparators(a)
  {
    StripSeparatorsConcat(a, b);
    StripSeparatorsOnlySeparators(b);
  }

  /** Removing separators from `a + b` when `b` has no separators in it. */
  lemma StripSeparatorsThenPlain(a: string, b: string)
    requires forall i :: 0 <= i < |b| ==> !IsPhoneSeparator(b[i])
    ensures StripSeparators(a + b) == StripSeparators(a) + b
  {
    StripSeparatorsConcat(a, b);
    StripSeparatorsPlain(b);
  }

  /** The shape the site's phone mask produces, `+7 (XXX) XXX-XX-XX`,
      filled with ten digits. */
  function MaskedPhone(d: string): (r: string)
    requires |d| == 10
    ensures |r| == 18
  {
    "+7 (" + d[..3] + ") " + d[3..6] + "-" + d[6..8] + "-" + d[8..]
  }

  lemma StripSeparatorsMaskOpening()
    ensures StripSeparators("+7 (") == "7"
  {
    assert "+7 (" == ['+'] + "7 (";
    assert "7 (" == ['7'] + " (";
    assert StripSeparators(" (") == [];
  }

  /** Appending a run of separators and then a group of digits adds just
      the digits. */
  lemma StripSeparatorsGroup(pre: string, sep: string, group: string)
    requires forall i :: 0 <= i < |sep| ==> IsPhoneSeparator(sep[i])
    requires AllDigits(group)
    ensures StripSeparators(pre + sep + group) == StripSeparators(pre) + group
  {
    StripSeparatorsThenSeparators(pre, sep);
    StripSeparatorsThenPlain(pre + sep, group);
  }

  lemma StripSeparatorsMasked(d: string)
    requires |d| == 10 && AllDigits(d)
    ensures StripSeparators(MaskedPhone(d)) == "7" + d
  {
    var a, b, c, e := d[..3], d[3..6], d[6..8], d[8..];
    AllDigitsSlice(d, 0, 3);
    AllDigitsSlice(d, 3, 6);
    AllDigitsSlice(d, 6, 8);
    AllDigitsSlice(d, 8, 10);
    assert d[0..3] == a && d[8..10] == e;
    StripSeparatorsMaskOpening();
    StripSeparatorsThenPlain("+7 (", a);
    var p := "+7 (" + a;
    StripSeparatorsGroup(p, ") ", b);
    var q := p + ") " + b;
    StripSeparatorsGroup(q, "-", c);
    var t := q + "-" + c;
    StripSeparatorsGroup(t, "-", e);
    assert t + "-" + e == MaskedPhone(d);
    assert a + b + c + e == d;
  }

  /** Every phone in the masked shape is accepted: its separators come off
      and eleven digits remain, `7` followed by the ten entered. */
  lemma CleanPhoneAcceptsMasked(d: string)
    requires |d| == 10 && AllDigits(d)
    ensures CleanPhone(MaskedPhone(d)) == None
  {
    StripSeparatorsMasked(d);
    var cleaned := "7" + d;
    forall i | 0 <= i < |cleaned| ensures IsDigit(cleaned[i]) {
      if i > 0 {
        assert cleaned[i] == d[i - 1];
      }
    }
  }

  /** The length test runs before the digit test: five letters are reported
      as a wrong length ... */
  lemma CleanPhoneLengthFirst()
    ensures CleanPhone("abcde") == Some(WrongLength)
  {
    CleanPhoneOfPlain("abcde");
  }

  /** ... and ten characters with letters among them as non-digits. */
  lemma CleanPhoneDigitsSecond()
    ensures CleanPhone("999abc4567") == Some(NotDigits)
  {
    CleanPhoneOfPlain("999abc4567");
    assert !IsDigit("999abc4567"[3]);
  }

  /** A phone written without separators is judged on its own length and
      characters. */
  lemma CleanPhoneOfPlain(phone: string)
    requires phone != [] && forall i :: 0 <= i < |phone| ==> !IsPhoneSeparator(phone[i])
    ensures |phone| != 10 && |phone| != 11 ==> CleanPhone(phone) == Some(WrongLength)
    ensures (|phone| == 10 || |phone| == 11) && !AllDigits(phone) ==> CleanPhone(phone) == Some(NotDigits)
  {
    StripSeparatorsPlain(phone);
  }

  // ---------------------------------------------------------------------
  // Order.save
  // ---------------------------------------------------------------------

  datatype Order = Order(
    customerName: string,
    customerPhone: string,
    customerAddress: string,
    paymentMethod: string,
    deliveryMethod: string,
    deliveryCity: string,
    deliveryDistance: int,
    deliveryPrice: int,
    totalPrice: int)

  /** `Order.save`: `clean` runs first, so an order whose non-empty phone
      breaks the rule is never stored; any other order is stored as given. */
  function SaveOrder(o: Order): (r: Result<Order, PhoneError>)
    ensures r.Ok? <==> o.customerPhone == [] || PhoneDigitsValid(o.customerPhone)
    ensures r.Ok? ==> r.value == o
    ensures r.Err? ==> Some(r.error) == CleanPhone(o.customerPhone)
  {
    match CleanPhone(o.customerPhone)
    case Some(e) => Err(e)
    case None => Ok(o)
  }

  // ---------------------------------------------------------------------
  // OrderItem
  // ---------------------------------------------------------------------

  /** A line of a stored order. Title and price are a snapshot, so the line
      keeps its value when the product is later changed or deleted. */
  class OrderItem {
    var product: Option<Product>
    var productTitle: string
    var productPrice: int
    var quantity: int

    constructor (product: Option<Product>, productTitle: string, productPrice: int, quantity: int)
      ensures this.product == product && this.productTitle == productTitle
      ensures this.productPrice == productPrice && this.quantity == quantity
    {
      this.product := product;
      this.productTitle := productTitle;
      this.productPrice := productPrice;
      this.quantity := quantity;
    }

    /** `get_total`: the snapshot price times the quantity; the product's
        current price plays no part. */
    function GetTotal(): (t: int)
      reads this
      ensures t == productPrice * quantity
    {
      productPrice * quantity
    }

    /** `OrderItem.save`: title and price are copied from the product only
        where they are empty; a price of 0 counts as empty. */
    method Save()
      modifies this
      ensures product == old(product) && quantity == old(quantity)
      ensures productTitle == if old(product).Some? && old(productTitle) == [] then old(product).value.title else old(productTitle)
      ensures productPrice == if old(product).Some? && old(productPrice) == 0 then old(product).value.price else old(productPrice)
      ensures GetTotal() == (if old(product).Some? && old(productPrice) == 0 then old(product).value.price else old(productPrice)) * quantity
    {
      if product.Some? && productTitle == [] {
        productTitle := product.value.title;
      }
      if product.Some? && productPrice == 0 {
        productPrice := product.value.price;
      }
    }
  }

  // ---------------------------------------------------------------------
  // Product helpers
  // ---------------------------------------------------------------------

  /** `get_ingredients_list`: nothing for an empty text, otherwise the
      comma-separated pieces, each stripped of surrounding whitespace. */
  function IngredientsList(ingredients: string): (r: seq<string>)
    ensures ingredients == [] ==> r == []
    ensures ingredients != [] ==> |r| == |Split(ingredients, ',')|
    ensures ingredients != [] ==> forall i :: 0 <= i < |r| ==> r[i] == Strip(Split(ingredients, ',')[i])
  {
    if ingredients == [] then []
    else
      var parts := Split(ingredients, ',');
      seq(|parts|, i requires 0 <= i < |parts| => Strip(parts[i]))
  }

  /** A non-empty ingredient text gives one entry more than it has commas,
      none of them containing a comma or starting or ending with a blank. */
  lemma IngredientsListShape(ingredients: string)
    requires ingredients != []
    ensures |IngredientsList(ingredients)| == Count(ingredients, ',') + 1
    ensures forall i :: 0 <= i < |IngredientsList(ingredients)| ==>
      var e := IngredientsList(ingredients)[i];
      ',' !in e && (e != [] ==> !IsSpace(e[0]) && !IsSpace(e[|e| - 1]))
  {
    SplitProperties(ingredients, ',');
    var parts := Split(ingredients, ',');
    forall i | 0 <= i < |parts| ensures ',' !in Strip(parts[i]) {
      assert parts[i] in parts;
      var a, b := StripIsSlice(parts[i]);
    }
  }

  const NotSpecified: string := "Не указано"

  datatype Nutrition = Nutrition(calories: string, protein: string, carbs: string)

  /** `get_nutrition_info`: a missing or falsy value (no calories, 0
      calories, an empty string) shows the placeholder; any other value is
      shown followed by its unit. */
  function NutritionInfo(p: Product): (r: Nutrition)
    ensures (p.calories.None? || p.calories == Some(0)) <==> r.calories == NotSpecified
    ensures p.calories.Some? && p.calories.value != 0 ==> r.calories == IntToString(p.calories.value) + " ккал"
    ensures r.protein == if p.protein == [] then NotSpecified else p.protein + "г"
    ensures r.carbs == if p.carbs == [] then NotSpecified else p.carbs + "г"
  {
    var shown := p.calories.Some? && p.calories.value != 0;
    var calories := if shown then IntToString(p.calories.value) + " ккал" else NotSpecified;
    assert shown ==> calories[|calories| - 1] == 'л' != NotSpecified[|NotSpecified| - 1];
    Nutrition(
      calories,
      if p.protein == [] then NotSpecified else p.protein + "г",
      if p.carbs == [] then NotSpecified else p.carbs + "г")
  }

  /** The shown calorie figure reads back as the stored number. */
  lemma NutritionCaloriesReadBack(p: Product)
    requires p.calories.Some? && p.calories.value > 0
    ensures var shown := NutritionInfo(p).calories;
      |shown| > 5 && AllDigits(shown[..|shown| - 5]) && ParseNat(shown[..|shown| - 5]) == p.calories.value
  {
    var shown := NutritionInfo(p).calories;
    var digits := NatToString(p.calories.value);
    assert shown == digits + " ккал";
    assert shown[..|shown| - 5] == digits;
    NatToStringRoundTrip(p.calories.value);
  }
}
