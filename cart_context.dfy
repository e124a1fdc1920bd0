/** `cart_context`, the template context processor that puts the cart
    count on every page. */
module CartContext {
  import opened Cart

  /** What reading the session gives: no `cart` entry, a stored cart, or an
      exception. */
  datatype SessionRead = NoCart | Stored(cart: CartMap) | ReadFailed

  /** The count shown: the sum of the quantities when a non-empty cart is
      read, and 0 when there is no cart, the cart is empty or reading it
      fails. */
  ghost function CartCount(read: SessionRead): (n: int)
    ensures read.NoCart? || read.ReadFailed? ==> n == 0
    ensures read.Stored? && read.cart == map[] ==> n == 0
    ensures read.Stored? && read.cart != map[] ==> n == SumValues(read.cart)
  {
    match read
    case NoCart => 0
    case ReadFailed => 0
    case Stored(cart) => if cart != map[] then SumValues(cart) else 0
  }

  /** For the carts the site writes, the icon shows 0 exactly when there is
      nothing in the cart, and otherwise at least one per distinct product. */
  lemma CartCountZero(read: SessionRead)
    requires read.Stored? ==> Valid(read.cart)
    ensures CartCount(read) == 0 <==> read.NoCart? || read.ReadFailed? || read.cart == map[]
    ensures read.Stored? ==> CartCount(read) >= |read.cart|
  {
    if read.Stored? {
      CountOfValid(read.cart);
    }
  }
}
