/**
 * The cart collection's schema (models/Cart.js): the record types of a cart and
 * of a cart line, and the constraints Mongoose checks when a cart is saved.
 */
module CartSchema {
  import opened Wrappers
  import opened Api

  /** Smallest quantity a line may hold (`min: 1`). */
  const MinQuantity := 1
  /** Smallest subtotal a line may hold (`min: 0`). */
  const MinSubtotal := 0
  /** The value of `totalPrice` when a new cart is given none. */
  const DefaultTotalPrice := 0

  /** A line of a cart that passed validation (cartItemSchema). */
  datatype CartItem = CartItem(productId: ObjectId, quantity: int, subtotal: int)

  /** A line as handed to the schema, before validation: any field may be missing. */
  datatype RawItem = RawItem(productId: Option<ObjectId>, quantity: Option<int>, subtotal: Option<int>)

  /** A cart document (cartSchema); `orderedOn` is a timestamp and is not modelled. */
  datatype CartDoc = CartDoc(userId: ObjectId, cartItems: seq<CartItem>, totalPrice: int)

  predicate ValidItem(item: CartItem) {
    item.quantity >= MinQuantity && item.subtotal >= MinSubtotal
  }

  predicate ValidItems(items: seq<CartItem>) {
    forall i :: 0 <= i < |items| ==> ValidItem(items[i])
  }

  /** Validation of one line: every field is required and the two minimums hold. */
  function ValidateItem(raw: RawItem): (r: Option<CartItem>)
    ensures r.Some? <==>
      raw.productId.Some? && raw.quantity.Some? && raw.subtotal.Some?
      && raw.quantity.value >= MinQuantity && raw.subtotal.value >= MinSubtotal
    ensures r.Some? ==>
      ValidItem(r.value)
      && r.value.productId == raw.productId.value
      && r.value.quantity == raw.quantity.value
      && r.value.subtotal == raw.subtotal.value
  {
    match (raw.productId, raw.quantity, raw.subtotal)
    case (Some(p), Some(q), Some(s)) =>
      if q >= MinQuantity && s >= MinSubtotal then Some(CartItem(p, q, s)) else None
    case _ => None
  }

  /** Validation of every line of a cart, in order; one bad line fails the whole list. */
  function ValidateItems(raws: seq<RawItem>): (r: Option<seq<CartItem>>)
    ensures r.Some? <==> forall i :: 0 <= i < |raws| ==> ValidateItem(raws[i]).Some?
    ensures r.Some? ==>
      |r.value| == |raws| && ValidItems(r.value)
      && forall i :: 0 <= i < |raws| ==> Some(r.value[i]) == ValidateItem(raws[i])
  {
    if raws == [] then Some([])
    else
      match (ValidateItem(raws[0]), ValidateItems(raws[1..]))
      case (Some(first), Some(rest)) =>
        assert forall i :: 1 <= i < |raws| ==> raws[i] == raws[1..][i - 1];
        Some([first] + rest)
      case (None, _) => None
      case (_, None) =>
        assert forall i :: 0 <= i < |raws[1..]| ==> raws[1..][i] == raws[i + 1];
        None
  }

  /**
   * `new Cart({ userId, cartItems, totalPrice })` followed by validation at save:
   * `userId` is required, every line must validate, and an absent `totalPrice`
   * takes its default.
   */
  function ValidateCart(userId: Option<ObjectId>, raws: seq<RawItem>, totalPrice: Option<int>): (r: Option<CartDoc>)
    ensures r.Some? <==> userId.Some? && ValidateItems(raws).Some?
    ensures r.Some? ==>
      r.value.userId == userId.value
      && r.value.cartItems == ValidateItems(raws).value
      && ValidItems(r.value.cartItems)
      && r.value.totalPrice == totalPrice.GetOr(DefaultTotalPrice)
  {
    match (userId, ValidateItems(raws))
    case (Some(u), Some(items)) => Some(CartDoc(u, items, totalPrice.GetOr(DefaultTotalPrice)))
    case _ => None
  }

  /** A cart built with no `totalPrice` and lines that validate is stored with those lines and a total of 0. */
  lemma NewCartTotalDefaultsToZero(userId: ObjectId, raws: seq<RawItem>)
    requires ValidateItems(raws).Some?
    ensures ValidateCart(Some(userId), raws, None) == Some(CartDoc(userId, ValidateItems(raws).value, DefaultTotalPrice))
  {
  }
}
