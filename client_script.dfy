/** The two computations of the site's browser script that the server
    relies on or mirrors: the phone-field mask, whose output must pass the
    order form's phone check, and the booking price estimate shown while
    the booking form is filled in. */
module ClientScript {
  import opened Wrappers
  import opened Text
  import MenuModels
  import Bookings

  // ---------------------------------------------------------------------
  // The phone mask
  // ---------------------------------------------------------------------

  /** JavaScript's `s.substring(i, j)` for `i <= j`: both ends are clamped
      to the length of `s`. */
  function Substring(s: string, i: nat, j: nat): (r: string)
    requires i <= j
    ensures j <= |s| ==> r == s[i..j]
    ensures i <= |s| <= j ==> r == s[i..]
    ensures |s| < i ==> r == []
  {
    var a := if i <= |s| then i else |s|;
    var b := if j <= |s| then j else |s|;
    s[a..b]
  }

  /** What the mask keeps of the field: its digits, cut to the first
      eleven. */
  function Entered(value: string): (r: string)
    ensures AllDigits(r) && |r| <= 11
    ensures |r| <= |DigitsOf(value)| && r == DigitsOf(value)[..|r|]
    ensures |DigitsOf(value)| <= 11 ==> r == DigitsOf(value)
    ensures |DigitsOf(value)| > 11 ==> |r| == 11
  {
    var digits := DigitsOf(value);
    if |digits| > 11 then digits[..11] else digits
  }

  /** The grouping of the entered digits: the first digit is replaced by
      the country code `+7`, and the rest are grouped 3, 3, 2, 2 as far as
      they go. */
  function Format(input: string): (r: string)
    requires 1 <= |input| <= 11
    ensures |r| >= 3 && r[..3] == "+7 "
  {
    var n := |input|;
    if n <= 1 then "+7 " + input
    else if n <= 4 then "+7 (" + Substring(input, 1, 4)
    else if n <= 7 then "+7 (" + Substring(input, 1, 4) + ") " + Substring(input, 4, 7)
    else if n <= 9 then
      "+7 (" + Substring(input, 1, 4) + ") " + Substring(input, 4, 7) + "-" + Substring(input, 7, 9)
    else
      "+7 (" + Substring(input, 1, 4) + ") " + Substring(input, 4, 7) + "-" + Substring(input, 7, 9)
      + "-" + Substring(input, 9, 11)
  }

  /** The `input` handler of the phone field: the new field value, or
      `None` when the field holds no digit and is left as it is. */
  function PhoneMask(value: string): (r: Option<string>)
    ensures r.None? <==> DigitsOf(value) == []
    ensures r.Some? ==> |r.value| >= 3 && r.value[..3] == "+7 "
    ensures |DigitsOf(value)| == 1 ==> r == Some("+7 " + DigitsOf(value))
  {
    var input := Entered(value);
    if |input| > 0 then Some(Format(input)) else None
  }

  /** Appending a separator with no digits and then a group of digits adds
      just the digits. */
  lemma DigitsOfGroup(pre: string, sep: string, group: string)
    requires DigitsOf(sep) == [] && AllDigits(group)
    ensures DigitsOf(pre + sep + group) == DigitsOf(pre) + group
  {
    DigitsOfConcat(pre, sep);
    DigitsOfConcat(pre + sep, group);
    DigitsOfAllDigits(group);
  }

  lemma DigitsOfMaskLiterals()
    ensures DigitsOf("+7 (") == "7" && DigitsOf("+7 ") == "7"
    ensures DigitsOf(") ") == [] && DigitsOf("-") == []
  {
    assert "+7 (" == ['+'] + "7 (";
    assert "7 (" == ['7'] + " (";
    assert DigitsOf(" (") == [];
    assert "+7 " == ['+'] + "7 ";
    assert "7 " == ['7'] + " ";
  }

  /** The digits of `+7 (` and the first group, then of each further
      separator and group, are the digits entered. */
  lemma DigitsOfGroups(input: string)
    requires 2 <= |input| <= 11 && AllDigits(input)
    ensures var n := |input|;
      var a, b, c, d := Substring(input, 1, 4), Substring(input, 4, 7), Substring(input, 7, 9), Substring(input, 9, 11);
      && DigitsOf("+7 (" + a) == "7" + a
      && (n > 4 ==> DigitsOf("+7 (" + a + ") " + b) == "7" + a + b)
      && (n > 7 ==> DigitsOf("+7 (" + a + ") " + b + "-" + c) == "7" + a + b + c)
      && (n > 9 ==> DigitsOf("+7 (" + a + ") " + b + "-" + c + "-" + d) == "7" + a + b + c + d)
  {
    var n := |input|;
    DigitsOfMaskLiterals();
    var a, b, c, d := Substring(input, 1, 4), Substring(input, 4, 7), Substring(input, 7, 9), Substring(input, 9, 11);
    AllDigitsSlice(input, 1, if n <= 4 then n else 4);
    DigitsOfAllDigits(a);
    DigitsOfConcat("+7 (", a);
    if n > 4 {
      AllDigitsSlice(input, 4, if n <= 7 then n else 7);
      DigitsOfGroup("+7 (" + a, ") ", b);
      if n > 7 {
        AllDigitsSlice(input, 7, if n <= 9 then n else 9);
        DigitsOfGroup("+7 (" + a + ") " + b, "-", c);
        if n > 9 {
          AllDigitsSlice(input, 9, n);
          DigitsOfGroup("+7 (" + a + ") " + b + "-" + c, "-", d);
        }
      }
    }
  }

  /** The groups, put back together, are the entered digits after the
      first. */
  lemma GroupsCover(input: string)
    requires 2 <= |input| <= 11
    ensures var n := |input|;
      var a, b, c, d := Substring(input, 1, 4), Substring(input, 4, 7), Substring(input, 7, 9), Substring(input, 9, 11);
      && (n <= 4 ==> input[1..] == a)
      && (4 < n <= 7 ==> input[1..] == a + b)
      && (7 < n <= 9 ==> input[1..] == a + b + c)
      && (9 < n ==> input[1..] == a + b + c + d)
  {
  }

  /** The digits of a formatted number, for two digits or more, are `7`
      and every entered digit after the first. */
  lemma FormatDigits(input: string)
    requires 2 <= |input| <= 11 && AllDigits(input)
    ensures DigitsOf(Format(input)) == "7" + input[1..]
  {
    DigitsOfGroups(input);
    GroupsCover(input);
  }

  /** The grouping reads only the digits after the first. */
  lemma FormatIgnoresFirst(x: string, y: string)
    requires 2 <= |x| <= 11 && |x| == |y| && x[1..] == y[1..]
    ensures Format(x) == Format(y)
  {
    SubstringIgnoresFirst(x, y, 1, 4);
    SubstringIgnoresFirst(x, y, 4, 7);
    SubstringIgnoresFirst(x, y, 7, 9);
    SubstringIgnoresFirst(x, y, 9, 11);
  }

  lemma SubstringIgnoresFirst(x: string, y: string, i: nat, j: nat)
    requires 1 <= i <= j && 1 <= |x| == |y| && x[1..] == y[1..]
    ensures Substring(x, i, j) == Substring(y, i, j)
  {
    if i <= |x| {
      var b := if j <= |x| then j else |x|;
      forall k | 0 <= k < b - i ensures x[i..b][k] == y[i..b][k] {
        assert x[i + k] == x[1..][i + k - 1];
        assert y[i + k] == y[1..][i + k - 1];
      }
      assert x[i..b] == y[i..b];
    }
  }

  /** With two digits or more the masked value shows `7` followed by the
      entered digits after the first, and masking it again changes nothing:
      the handler is stable under repeated input events. */
  lemma PhoneMaskStable(value: string)
    requires |Entered(value)| >= 2
    ensures DigitsOf(PhoneMask(value).value) == "7" + Entered(value)[1..]
    ensures PhoneMask(PhoneMask(value).value) == PhoneMask(value)
  {
    var input := Entered(value);
    var out := PhoneMask(value).value;
    FormatDigits(input);
    var again := "7" + input[1..];
    assert Entered(out) == again;
    assert again[1..] == input[1..];
    FormatIgnoresFirst(again, input);
  }

  /** A single entered digit is shown after `+7 `, and the next input event
      regroups it as the first digit after the country code. */
  lemma PhoneMaskSingleDigit(value: string)
    requires |DigitsOf(value)| == 1
    ensures PhoneMask(value) == Some("+7 " + DigitsOf(value))
    ensures PhoneMask(PhoneMask(value).value) == Some("+7 (" + DigitsOf(value))
  {
    var d := DigitsOf(value);
    DigitsOfMaskLiterals();
    DigitsOfAllDigits(d);
    DigitsOfConcat("+7 ", d);
    var again := "7" + d;
    assert Entered("+7 " + d) == again;
    assert Substring(again, 1, 4) == d;
  }

  /** Eleven entered digits give the full mask `+7 (ABC) DEF-GH-IJ` of 18
      characters, which the order form's phone check accepts. */
  lemma PhoneMaskComplete(value: string)
    requires |Entered(value)| == 11
    ensures PhoneMask(value) == Some(MenuModels.MaskedPhone(Entered(value)[1..]))
    ensures |PhoneMask(value).value| == 18
    ensures MenuModels.CleanPhone(PhoneMask(value).value) == None
  {
    var input := Entered(value);
    var d := input[1..];
    assert Substring(input, 1, 4) == d[..3];
    assert Substring(input, 4, 7) == d[3..6];
    assert Substring(input, 7, 9) == d[6..8];
    assert Substring(input, 9, 11) == d[8..];
    assert AllDigits(d) by {
      forall k | 0 <= k < |d| ensures IsDigit(d[k]) {
        assert d[k] == input[k + 1];
      }
    }
    MenuModels.CleanPhoneAcceptsMasked(d);
  }

  // ---------------------------------------------------------------------
  // The booking price estimate
  // ---------------------------------------------------------------------

  /** The price per guest and hour the script charges. */
  const BasePerGuestHour: int := 500

  /** The script's copy of the services price list. */
  const ClientServices: map<string, int> :=
    map["animator" := 1000, "cake" := 1500, "decorations" := 2000, "photographer" := 2500]

  /** `BOOKING_PRICES.services[value] || 0`. */
  function ClientServicePrice(service: string): (p: int)
    ensures service !in ClientServices ==> p == 0
    ensures service in ClientServices ==> p == ClientServices[service]
  {
    if service in ClientServices && ClientServices[service] != 0 then ClientServices[service] else 0
  }

  /** The script's price list is the server's, service by service. */
  lemma ClientPricesMatchServer(service: string)
    ensures ClientServicePrice(service) == Bookings.ServicePrice(service)
  {
    if service !in {"animator", "cake", "decorations", "photographer"} {
      assert service !in ClientServices;
    }
  }

  /** `parseInt(...) || 2`: an unreadable or zero duration counts as two
      hours. */
  function Hours(duration: Option<int>): (h: int)
    ensures h != 0
    ensures duration.Some? && duration.value != 0 ==> h == duration.value
  {
    if duration.None? || duration.value == 0 then 2 else duration.value
  }

  /** `guests * base_per_guest_hour * duration`, an unreadable guest count
      counting as none. */
  function ClientBaseCost(guests: Option<int>, duration: Option<int>): (c: int)
    ensures guests.None? ==> c == 0
    ensures guests.Some? && guests.value >= 0 && Hours(duration) > 0 ==> c >= 0
  {
    guests.GetOr(0) * BasePerGuestHour * Hours(duration)
  }

  /** `calculateBookingPrice`: the base cost from guests and hours, the
      services summed one checked box at a time, and their total. The
      services sum is the one the server stores. */
  method CalculateBookingPrice(guests: Option<int>, duration: Option<int>, services: seq<string>)
    returns (baseCost: int, servicesCost: int, totalCost: int)
    ensures baseCost == ClientBaseCost(guests, duration)
    ensures servicesCost == Bookings.ServicesCost(services)
    ensures totalCost == baseCost + servicesCost
  {
    var g := if guests.Some? then guests.value else 0;
    var h := if duration.Some? && duration.value != 0 then duration.value else 2;
    baseCost := g * BasePerGuestHour * h;
    servicesCost := 0;
    var i := 0;
    while i < |services|
      invariant 0 <= i <= |services|
      invariant servicesCost == Bookings.ServicesCost(services[..i])
    {
      var price := if services[i] in ClientServices && ClientServices[services[i]] != 0
                   then ClientServices[services[i]] else 0;
      ClientPricesMatchServer(services[i]);
      Bookings.ServicesCostAddOne(services[..i], services[i]);
      assert services[..i + 1] == services[..i] + [services[i]];
      servicesCost := servicesCost + price;
      i := i + 1;
    }
    assert services[..i] == services;
    totalCost := baseCost + servicesCost;
  }

  /** The estimate prices each guest-hour, the server each hour: the two
      base costs agree exactly when five guests are entered. */
  lemma EstimateMatchesServerBase(guests: Option<int>, duration: Option<int>)
    ensures ClientBaseCost(guests, duration) == Bookings.BaseHourlyRate * Hours(duration)
      <==> guests.GetOr(0) == 5
  {
    var g, h := guests.GetOr(0), Hours(duration);
    assert ClientBaseCost(guests, duration) - Bookings.BaseHourlyRate * h == 500 * ((g - 5) * h);
    if g != 5 {
      assert (g - 5) * h != 0;
    }
  }
}
