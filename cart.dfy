/**
 * The cart handlers of controllers/cart.js. A cart document is an object whose
 * line list and total the handlers change in place (`Cart`); the cart
 * collection maps each user id to that user's cart (`CartStore`). Each handler
 * runs as one atomic step and is specified by a pure rule over the abstract
 * collection, `map<ObjectId, CartDoc>`; the lemmas below the rules state what
 * the source promises about them.
 */
module CartController {
  import opened Wrappers
  import opened Api
  import opened CartSchema
  import opened CartLines
  import opened ProductController

  /** The abstract cart collection: user id to cart document. */
  type Carts = map<ObjectId, CartDoc>

  /** The status a handler answers with and the cart collection it leaves behind. */
  datatype Step = Step(status: int, carts: Carts)

  /** What every stored cart satisfies: keyed by its owner, valid lines, distinct products, total = sum of subtotals. */
  ghost predicate WellFormed(carts: Carts) {
    forall u :: u in carts ==>
      && carts[u].userId == u
      && ValidItems(carts[u].cartItems)
      && Distinct(carts[u].cartItems)
      && carts[u].totalPrice == Total(carts[u].cartItems)
  }

  /** The cart with new lines and the total recomputed from them. */
  function WithItems(doc: CartDoc, items: seq<CartItem>): CartDoc {
    doc.(cartItems := items, totalPrice := Total(items))
  }

  // ===== the rules =====

  /** addToCart (controllers/cart.js:5-82): the admin check, then create the caller's cart or add to it. */
  function AddToCartRule(carts: Carts, caller: Caller, productId: Option<ObjectId>, quantity: Option<int>, subtotal: Option<int>): Step
  {
    if caller.isAdmin then Step(Forbidden, carts)
    else if caller.id !in carts then CreateCartRule(carts, caller.id, productId, quantity, subtotal)
    else AddToExistingCartRule(carts, caller.id, productId, quantity, subtotal)
  }

  /** addToCart for a user without a cart (controllers/cart.js:26-48): a new cart holding the one line. */
  function CreateCartRule(carts: Carts, userId: ObjectId, productId: Option<ObjectId>, quantity: Option<int>, subtotal: Option<int>): Step
  {
    match ValidateCart(Some(userId), [RawItem(productId, quantity, subtotal)], subtotal)
    case None => Step(ServerError, carts)
    case Some(doc) => Step(Created, carts[userId := doc])
  }

  /** addToCart for a user with a cart (controllers/cart.js:51-75): merge or append, then recompute the total. */
  function AddToExistingCartRule(carts: Carts, userId: ObjectId, productId: Option<ObjectId>, quantity: Option<int>, subtotal: Option<int>): Step
    requires userId in carts
  {
    if productId.None? || quantity.None? || subtotal.None? then
      // `undefined` reaches the document and fails validation at save
      Step(ServerError, carts)
    else
      var items := Merge(carts[userId].cartItems, productId.value, quantity.value, subtotal.value);
      if ValidItems(items) then Step(Ok, carts[userId := WithItems(carts[userId], items)])
      else Step(ServerError, carts)
  }

  /** updateCartQuantity (controllers/cart.js:118-167); `products` is the product collection. */
  function UpdateCartQuantityRule(carts: Carts, products: map<ObjectId, Product>, userId: ObjectId, productId: Option<ObjectId>, quantity: Option<int>): Step
  {
    if productId.None? || quantity.None? || quantity.value < 1 then Step(BadRequest, carts)
    else if userId !in carts then Step(NotFound, carts)
    else
      var i := IndexOf(carts[userId].cartItems, productId.value);
      if i < 0 || productId.value !in products then Step(NotFound, carts)
      else
        var items := Reprice(carts[userId].cartItems, i, quantity.value, products[productId.value].price);
        if ValidItems(items) then Step(Ok, carts[userId := WithItems(carts[userId], items)])
        else Step(ServerError, carts)
  }

  /** removeFromCart (controllers/cart.js:170-214); `None` is a request without a user. */
  function RemoveFromCartRule(carts: Carts, caller: Option<Caller>, productId: ObjectId): Step
  {
    if caller.None? then Step(Unauthorized, carts)
    else if caller.value.id !in carts then Step(NotFound, carts)
    else
      var u := caller.value.id;
      var i := IndexOf(carts[u].cartItems, productId);
      if i < 0 then Step(NotFound, carts)
      else Step(Ok, carts[u := WithItems(carts[u], RemoveAt(carts[u].cartItems, i))])
  }

  /** clearCart (controllers/cart.js:220-250). */
  function ClearCartRule(carts: Carts, caller: Option<Caller>): Step
  {
    if caller.None? then Step(Unauthorized, carts)
    else if caller.value.id !in carts then Step(NotFound, carts)
    else Step(Ok, carts[caller.value.id := carts[caller.value.id].(cartItems := [], totalPrice := 0)])
  }

  /** Whether some line of the cart refers to a product the collection does not hold. */
  predicate HasDanglingLine(items: seq<CartItem>, products: map<ObjectId, Product>) {
    exists j :: 0 <= j < |items| && items[j].productId !in products
  }

  /**
   * getCart (controllers/cart.js:87-114): `[]` when the user has no cart, else
   * the cart as a one-element list. `populate` leaves the reference of a line
   * whose product is gone as null, and reading its `_id` throws: 500.
   */
  function GetCart(carts: Carts, products: map<ObjectId, Product>, userId: ObjectId): (r: Outcome<seq<CartDoc>>)
    ensures r.Failure? <==> userId in carts && HasDanglingLine(carts[userId].cartItems, products)
    ensures r.Failure? ==> r.status == ServerError
    ensures r.Success? ==> r.status == Ok && |r.value| <= 1
    ensures r.Success? ==> (r.value == [] <==> userId !in carts)
    ensures r.Success? && r.value != [] ==>
      && r.value[0] == carts[userId]
      && forall j :: 0 <= j < |r.value[0].cartItems| ==> r.value[0].cartItems[j].productId in products
  {
    if userId !in carts then Success(Ok, [])
    else if HasDanglingLine(carts[userId].cartItems, products) then Failure(ServerError)
    else Success(Ok, [carts[userId]])
  }

  // ===== what the rules promise =====

  /** An admin caller is refused with 403 and no cart is created or changed. */
  lemma AdminCannotAddToCart(carts: Carts, caller: Caller, productId: Option<ObjectId>, quantity: Option<int>, subtotal: Option<int>)
    requires caller.isAdmin
    ensures AddToCartRule(carts, caller, productId, quantity, subtotal) == Step(Forbidden, carts)
  {
  }

  /**
   * A user without a cart gets a new cart holding exactly the incoming line,
   * whose total is that line's subtotal; other users' carts are untouched.
   */
  lemma AddCreatesCartWithOneLine(carts: Carts, caller: Caller, productId: ObjectId, quantity: int, subtotal: int)
    requires !caller.isAdmin && caller.id !in carts
    requires quantity >= MinQuantity && subtotal >= MinSubtotal
    ensures AddToCartRule(carts, caller, Some(productId), Some(quantity), Some(subtotal))
      == Step(Created, carts[caller.id := CartDoc(caller.id, [CartItem(productId, quantity, subtotal)], subtotal)])
  {
    var raws := [RawItem(Some(productId), Some(quantity), Some(subtotal))];
    assert ValidateItems(raws).Some?;
    assert ValidateItems(raws).value == [CartItem(productId, quantity, subtotal)];
  }

  /** A new cart is refused (500) when its line fails the schema, and nothing is stored. */
  lemma AddRejectsInvalidNewLine(carts: Carts, caller: Caller, productId: Option<ObjectId>, quantity: Option<int>, subtotal: Option<int>)
    requires !caller.isAdmin && caller.id !in carts
    requires ValidateItem(RawItem(productId, quantity, subtotal)).None?
    ensures AddToCartRule(carts, caller, productId, quantity, subtotal) == Step(ServerError, carts)
  {
    var raws := [RawItem(productId, quantity, subtotal)];
    assert ValidateItems(raws).None?;
  }

  /** Every handler's rule keeps the collection well formed; in particular the total of every cart is the sum of its subtotals. */
  lemma AddToCartKeepsWellFormed(carts: Carts, caller: Caller, productId: Option<ObjectId>, quantity: Option<int>, subtotal: Option<int>)
    requires WellFormed(carts)
    ensures WellFormed(AddToCartRule(carts, caller, productId, quantity, subtotal).carts)
  {
    if !caller.isAdmin {
      if caller.id !in carts {
        var raws := [RawItem(productId, quantity, subtotal)];
        if ValidateItems(raws).Some? {
          var line := ValidateItems(raws).value[0];
          assert ValidateItems(raws).value == [line];
          assert Total([line]) == Total([line][..0]) + line.subtotal;
        }
      } else if productId.Some? && quantity.Some? && subtotal.Some? {
        MergeKeepsDistinct(carts[caller.id].cartItems, productId.value, quantity.value, subtotal.value);
      }
    }
  }

  lemma UpdateCartQuantityKeepsWellFormed(carts: Carts, products: map<ObjectId, Product>, userId: ObjectId, productId: Option<ObjectId>, quantity: Option<int>)
    requires WellFormed(carts)
    ensures WellFormed(UpdateCartQuantityRule(carts, products, userId, productId, quantity).carts)
  {
    if productId.Some? && quantity.Some? && userId in carts {
      var i := IndexOf(carts[userId].cartItems, productId.value);
      if i >= 0 && productId.value in products {
        RepriceKeepsInvariants(carts[userId].cartItems, i, quantity.value, products[productId.value].price);
      }
    }
  }

  lemma RemoveFromCartKeepsWellFormed(carts: Carts, caller: Option<Caller>, productId: ObjectId)
    requires WellFormed(carts)
    ensures WellFormed(RemoveFromCartRule(carts, caller, productId).carts)
  {
    if caller.Some? && caller.value.id in carts && IndexOf(carts[caller.value.id].cartItems, productId) >= 0 {
      RemoveFirstMatch(carts[caller.value.id].cartItems, productId);
    }
  }

  /** clearCart leaves the caller's cart with no lines and total 0, and touches no other cart. */
  lemma ClearCartEmpties(carts: Carts, caller: Caller)
    requires WellFormed(carts) && caller.id in carts
    ensures var s := ClearCartRule(carts, Some(caller));
      && s.status == Ok
      && s.carts.Keys == carts.Keys
      && s.carts[caller.id].cartItems == [] && s.carts[caller.id].totalPrice == 0
      && (forall u :: u in carts && u != caller.id ==> s.carts[u] == carts[u])
      && WellFormed(s.carts)
  {
  }

  /**
   * updateCartQuantity refuses a missing product id or a quantity below 1 with
   * 400 before looking anything up, and a missing cart or line with 404; in
   * every refusal the carts are unchanged.
   */
  lemma UpdateCartQuantityRefusals(carts: Carts, products: map<ObjectId, Product>, userId: ObjectId, productId: Option<ObjectId>, quantity: Option<int>)
    ensures var s := UpdateCartQuantityRule(carts, products, userId, productId, quantity);
      && (s.status == BadRequest <==> productId.None? || quantity.None? || quantity.value < 1)
      && (s.status != BadRequest && userId !in carts ==> s.status == NotFound)
      && (s.status != BadRequest && userId in carts && IndexOf(carts[userId].cartItems, productId.value) < 0 ==> s.status == NotFound)
      && (s.status != Ok ==> s.carts == carts)
  {
  }

  /** A successful quantity update replaces the line's quantity, reprices it, and changes no other line. */
  lemma UpdateCartQuantityReplaces(carts: Carts, products: map<ObjectId, Product>, userId: ObjectId, productId: ObjectId, quantity: int)
    requires WellFormed(carts) && userId in carts
    requires UpdateCartQuantityRule(carts, products, userId, Some(productId), Some(quantity)).status == Ok
    ensures var old_ := carts[userId].cartItems;
      var i := IndexOf(old_, productId);
      var new_ := UpdateCartQuantityRule(carts, products, userId, Some(productId), Some(quantity)).carts[userId];
      && 0 <= i && productId in products
      && |new_.cartItems| == |old_|
      && new_.cartItems[i] == CartItem(productId, quantity, products[productId].price * quantity)
      && (forall j :: 0 <= j < |old_| && j != i ==> new_.cartItems[j] == old_[j])
      && new_.totalPrice == carts[userId].totalPrice - old_[i].subtotal + products[productId].price * quantity
  {
    var i := IndexOf(carts[userId].cartItems, productId);
    RepriceReplacesOneLine(carts[userId].cartItems, i, quantity, products[productId].price);
  }

  /** removeFromCart answers 404 and changes nothing when no line holds the product. */
  lemma RemoveMissingLineIsNotFound(carts: Carts, caller: Caller, productId: ObjectId)
    requires caller.id in carts
    requires forall j :: 0 <= j < |carts[caller.id].cartItems| ==> carts[caller.id].cartItems[j].productId != productId
    ensures RemoveFromCartRule(carts, Some(caller), productId) == Step(NotFound, carts)
  {
  }

  // ===== the documents, updated in place =====

  /** One cart document: the handlers change its line list and total in place. */
  class Cart {
    const userId: ObjectId
    var cartItems: seq<CartItem>
    var totalPrice: int

    ghost predicate Valid()
      reads this
    {
      Distinct(cartItems) && totalPrice == Total(cartItems)
    }

    function Doc(): CartDoc
      reads this
    {
      CartDoc(userId, cartItems, totalPrice)
    }

    /** A new cart holding the validated document `doc`. */
    constructor (doc: CartDoc)
      requires Distinct(doc.cartItems) && doc.totalPrice == Total(doc.cartItems)
      ensures Valid() && Doc() == doc
    {
      userId := doc.userId;
      cartItems := doc.cartItems;
      totalPrice := doc.totalPrice;
    }

    /** The merge-or-append step of addToCart, then the total recomputed. */
    method AddLine(productId: ObjectId, quantity: int, subtotal: int)
      requires Valid()
      modifies this
      ensures Valid()
      ensures Doc() == WithItems(old(Doc()), Merge(old(cartItems), productId, quantity, subtotal))
    {
      ghost var merged := Merge(cartItems, productId, quantity, subtotal);
      MergeKeepsDistinct(cartItems, productId, quantity, subtotal);
      var i := IndexOf(cartItems, productId);
      if i >= 0 {
        var line := cartItems[i];
        cartItems := cartItems[i := line.(quantity := line.quantity + quantity, subtotal := line.subtotal + subtotal)];
      } else {
        cartItems := cartItems + [CartItem(productId, quantity, subtotal)];
      }
      assert cartItems == merged;
      totalPrice := Total(cartItems);
    }

    /** `item.quantity = quantity; item.subtotal = price * quantity`, then the total recomputed. */
    method SetQuantity(i: nat, quantity: int, price: int)
      requires Valid() && i < |cartItems|
      modifies this
      ensures Valid()
      ensures Doc() == WithItems(old(Doc()), Reprice(old(cartItems), i, quantity, price))
    {
      ghost var repriced := Reprice(cartItems, i, quantity, price);
      RepriceKeepsInvariants(cartItems, i, quantity, price);
      cartItems := cartItems[i := cartItems[i].(quantity := quantity)];
      cartItems := cartItems[i := cartItems[i].(subtotal := price * quantity)];
      assert cartItems == repriced;
      totalPrice := Total(cartItems);
    }

    /** `cartItems.splice(i, 1)`, then the total recomputed. */
    method RemoveLine(i: nat)
      requires Valid() && i < |cartItems|
      modifies this
      ensures Valid()
      ensures Doc() == WithItems(old(Doc()), RemoveAt(old(cartItems), i))
    {
      assert Distinct(RemoveAt(cartItems, i)) by {
        var r := RemoveAt(cartItems, i);
        assert forall j :: 0 <= j < |r| ==> r[j] == if j < i then cartItems[j] else cartItems[j + 1];
      }
      cartItems := cartItems[..i] + cartItems[i + 1..];
      totalPrice := Total(cartItems);
    }

    /** `cart.cartItems = []; cart.totalPrice = 0`. */
    method Empty()
      modifies this
      ensures Valid()
      ensures Doc() == old(Doc()).(cartItems := [], totalPrice := 0)
    {
      cartItems := [];
      totalPrice := 0;
    }
  }

  /** The cart collection: at most one cart per user. */
  class CartStore {
    var carts: map<ObjectId, Cart>

    ghost predicate Valid()
      reads this, carts.Values
    {
      forall u :: u in carts ==> carts[u].userId == u && carts[u].Valid() && ValidItems(carts[u].cartItems)
    }

    /** The collection as values. */
    ghost function Docs(): Carts
      reads this, carts.Values
    {
      map u | u in carts :: carts[u].Doc()
    }

    constructor ()
      ensures Valid() && Docs() == map[]
    {
      carts := map[];
    }

    /** addToCart: the admin check, then create the caller's cart or add to it. */
    method AddToCart(caller: Caller, productId: Option<ObjectId>, quantity: Option<int>, subtotal: Option<int>) returns (status: int)
      requires Valid()
      modifies this, carts.Values
      ensures Valid()
      ensures Step(status, Docs()) == AddToCartRule(old(Docs()), caller, productId, quantity, subtotal)
    {
      if caller.isAdmin {
        return Forbidden;
      }
      if caller.id !in carts {
        status := CreateCart(caller.id, productId, quantity, subtotal);
      } else {
        status := AddToExistingCart(caller.id, productId, quantity, subtotal);
      }
    }

    /** `new Cart({ userId, cartItems: [line], totalPrice: subtotal }).save()`. */
    method CreateCart(userId: ObjectId, productId: Option<ObjectId>, quantity: Option<int>, subtotal: Option<int>) returns (status: int)
      requires Valid() && userId !in carts
      modifies this
      ensures Valid()
      ensures Step(status, Docs()) == CreateCartRule(old(Docs()), userId, productId, quantity, subtotal)
    {
      var doc := ValidateCart(Some(userId), [RawItem(productId, quantity, subtotal)], subtotal);
      if doc.None? {
        return ServerError;
      }
      ghost var line := doc.value.cartItems[0];
      assert doc.value.cartItems == [line];
      assert Total([line]) == Total([line][..0]) + line.subtotal;
      var cart := new Cart(doc.value);
      carts := carts[userId := cart];
      assert Docs() == old(Docs())[userId := doc.value];
      return Created;
    }

    /** The merge-or-append into the caller's existing cart, committed only when the save would validate. */
    method AddToExistingCart(userId: ObjectId, productId: Option<ObjectId>, quantity: Option<int>, subtotal: Option<int>) returns (status: int)
      requires Valid() && userId in carts
      modifies carts.Values
      ensures Valid()
      ensures Step(status, Docs()) == AddToExistingCartRule(old(Docs()), userId, productId, quantity, subtotal)
    {
      if productId.None? || quantity.None? || subtotal.None? {
        return ServerError;
      }
      var cart := carts[userId];
      // Mongoose validates the changed document when it is saved; a failing save leaves the stored cart as it was.
      if !ValidItems(Merge(cart.cartItems, productId.value, quantity.value, subtotal.value)) {
        return ServerError;
      }
      cart.AddLine(productId.value, quantity.value, subtotal.value);
      status := Ok;
      Committed(old(Docs()), userId, cart);
    }

    /** updateCartQuantity: request checks, cart and line lookup, product lookup, reprice. */
    method UpdateCartQuantity(products: map<ObjectId, Product>, userId: ObjectId, productId: Option<ObjectId>, quantity: Option<int>) returns (status: int)
      requires Valid()
      modifies carts.Values
      ensures Valid()
      ensures Step(status, Docs()) == UpdateCartQuantityRule(old(Docs()), products, userId, productId, quantity)
    {
      if productId.None? || quantity.None? || quantity.value < 1 {
        return BadRequest;
      }
      if userId !in carts {
        return NotFound;
      }
      var cart := carts[userId];
      var i := IndexOf(cart.cartItems, productId.value);
      if i < 0 || productId.value !in products {
        return NotFound;
      }
      var price := products[productId.value].price;
      if !ValidItems(Reprice(cart.cartItems, i, quantity.value, price)) {
        return ServerError;
      }
      cart.SetQuantity(i, quantity.value, price);
      status := Ok;
      Committed(old(Docs()), userId, cart);
    }

    /** removeFromCart: splice out the first line for the product. */
    method RemoveFromCart(caller: Option<Caller>, productId: ObjectId) returns (status: int)
      requires Valid()
      modifies carts.Values
      ensures Valid()
      ensures Step(status, Docs()) == RemoveFromCartRule(old(Docs()), caller, productId)
    {
      if caller.None? {
        return Unauthorized;
      }
      if caller.value.id !in carts {
        return NotFound;
      }
      var cart := carts[caller.value.id];
      var i := IndexOf(cart.cartItems, productId);
      if i == -1 {
        return NotFound;
      }
      RemoveAtKeepsValidItems(cart.cartItems, i);
      cart.RemoveLine(i);
      status := Ok;
      Committed(old(Docs()), caller.value.id, cart);
    }

    /** clearCart: empty the caller's cart. */
    method ClearCart(caller: Option<Caller>) returns (status: int)
      requires Valid()
      modifies carts.Values
      ensures Valid()
      ensures Step(status, Docs()) == ClearCartRule(old(Docs()), caller)
    {
      if caller.None? {
        return Unauthorized;
      }
      if caller.value.id !in carts {
        return NotFound;
      }
      var cart := carts[caller.value.id];
      cart.Empty();
      status := Ok;
      Committed(old(Docs()), caller.value.id, cart);
    }

    /**
     * After one cart object changed in place, the collection differs from
     * `before` only at that cart's owner: every other cart is another object.
     */
    lemma Committed(before: Carts, u: ObjectId, cart: Cart)
      requires u in carts && carts[u] == cart
      requires before.Keys == carts.Keys
      requires forall v :: v in carts && v != u ==> carts[v].userId == v && before[v] == carts[v].Doc()
      ensures Docs() == before[u := cart.Doc()]
    {
    }
  }
}
