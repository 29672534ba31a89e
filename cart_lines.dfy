/**
 * The pure rules of controllers/cart.js over a cart's list of lines: the
 * running total (`reduce` over the subtotals), the search for a product's line
 * (`find` / `findIndex`), and the three edits the handlers make to the list:
 * merge-or-append, reprice one line, splice out one line.
 */
module CartLines {
  import opened Api
  import opened CartSchema

  /** `cartItems.reduce((sum, i) => sum + i.subtotal, 0)`, folded from the left. */
  function Total(items: seq<CartItem>): int
  {
    if items == [] then 0 else Total(items[..|items| - 1]) + items[|items| - 1].subtotal
  }

  /** No two lines of a cart are for the same product. */
  ghost predicate Distinct(items: seq<CartItem>) {
    forall i, j :: 0 <= i < j < |items| ==> items[i].productId != items[j].productId
  }

  /** Index of the first line for `productId`, or -1 when there is none. */
  function IndexOf(items: seq<CartItem>, productId: ObjectId): (r: int)
    ensures -1 <= r < |items|
    ensures r == -1 <==> forall j :: 0 <= j < |items| ==> items[j].productId != productId
    ensures r >= 0 ==>
      items[r].productId == productId
      && forall j :: 0 <= j < r ==> items[j].productId != productId
  {
    if items == [] then -1
    else if items[0].productId == productId then 0
    else
      var k := IndexOf(items[1..], productId);
      if k == -1 then -1 else k + 1
  }

  /**
   * addToCart on an existing cart: the incoming quantity and subtotal are added
   * to the product's line when there is one; otherwise a new line is appended.
   */
  function Merge(items: seq<CartItem>, productId: ObjectId, quantity: int, subtotal: int): seq<CartItem>
  {
    var i := IndexOf(items, productId);
    if i >= 0 then
      items[i := items[i].(quantity := items[i].quantity + quantity, subtotal := items[i].subtotal + subtotal)]
    else
      items + [CartItem(productId, quantity, subtotal)]
  }

  /** updateCartQuantity: line `i` gets the new quantity and is repriced at `price` per unit. */
  function Reprice(items: seq<CartItem>, i: nat, quantity: int, price: int): seq<CartItem>
    requires i < |items|
  {
    items[i := items[i].(quantity := quantity, subtotal := price * quantity)]
  }

  /** `cartItems.splice(i, 1)`. */
  function RemoveAt(items: seq<CartItem>, i: nat): seq<CartItem>
    requires i < |items|
  {
    items[..i] + items[i + 1..]
  }

  // ----- the running total -----

  lemma {:induction false} TotalAppend(a: seq<CartItem>, b: seq<CartItem>)
    ensures Total(a + b) == Total(a) + Total(b)
  {
    if b == [] {
      assert a + b == a;
    } else {
      var b' := b[..|b| - 1];
      assert (a + b)[..|a + b| - 1] == a + b';
      assert (a + b)[|a + b| - 1] == b[|b| - 1];
      TotalAppend(a, b');
    }
  }

  /** A valid cart never has a negative total. */
  lemma {:induction false} TotalNonNegative(items: seq<CartItem>)
    requires ValidItems(items)
    ensures Total(items) >= 0
  {
    if items != [] {
      TotalNonNegative(items[..|items| - 1]);
    }
  }

  /** The total splits around any line. */
  lemma TotalAround(items: seq<CartItem>, i: nat)
    requires i < |items|
    ensures Total(items) == Total(items[..i]) + items[i].subtotal + Total(items[i + 1..])
  {
    var before, line, after := items[..i], items[i], items[i + 1..];
    assert items == (before + [line]) + after;
    TotalAppend(before + [line], after);
    TotalAppend(before, [line]);
    assert [line][..0] == [];
  }

  /** Replacing one line moves the total by the change in that line's subtotal. */
  lemma TotalUpdate(items: seq<CartItem>, i: nat, line: CartItem)
    requires i < |items|
    ensures Total(items[i := line]) == Total(items) - items[i].subtotal + line.subtotal
  {
    var updated := items[i := line];
    TotalAround(items, i);
    TotalAround(updated, i);
    assert updated[..i] == items[..i];
    assert updated[i + 1..] == items[i + 1..];
  }

  // ----- addToCart -----

  /**
   * Adding a product the cart already holds adds to that line's quantity and
   * subtotal; the number of lines and every other line stay as they were, and
   * the total grows by the incoming subtotal.
   */
  lemma MergeIntoExistingLine(items: seq<CartItem>, productId: ObjectId, quantity: int, subtotal: int)
    requires IndexOf(items, productId) >= 0
    ensures var i, r := IndexOf(items, productId), Merge(items, productId, quantity, subtotal);
      && |r| == |items|
      && r[i] == CartItem(productId, items[i].quantity + quantity, items[i].subtotal + subtotal)
      && (forall j :: 0 <= j < |items| && j != i ==> r[j] == items[j])
      && Total(r) == Total(items) + subtotal
  {
    var i := IndexOf(items, productId);
    var line := CartItem(productId, items[i].quantity + quantity, items[i].subtotal + subtotal);
    assert Merge(items, productId, quantity, subtotal) == items[i := line];
    TotalUpdate(items, i, line);
  }

  /**
   * Adding a product the cart does not hold appends exactly one line at the end,
   * keeps the existing lines in order, and grows the total by the new subtotal.
   */
  lemma MergeAppendsNewLine(items: seq<CartItem>, productId: ObjectId, quantity: int, subtotal: int)
    requires IndexOf(items, productId) == -1
    ensures var r := Merge(items, productId, quantity, subtotal);
      && r == items + [CartItem(productId, quantity, subtotal)]
      && r[..|items|] == items
      && Total(r) == Total(items) + subtotal
  {
    var line := CartItem(productId, quantity, subtotal);
    TotalAppend(items, [line]);
    assert Total([line]) == Total([line][..0]) + subtotal;
  }

  /** Merge-or-append keeps product ids pairwise distinct, and the product then has a line. */
  lemma MergeKeepsDistinct(items: seq<CartItem>, productId: ObjectId, quantity: int, subtotal: int)
    requires Distinct(items)
    ensures Distinct(Merge(items, productId, quantity, subtotal))
    ensures IndexOf(Merge(items, productId, quantity, subtotal), productId) >= 0
  {
    var r := Merge(items, productId, quantity, subtotal);
    if IndexOf(items, productId) == -1 {
      assert r[|items|].productId == productId;
    } else {
      assert forall j :: 0 <= j < |r| ==> r[j].productId == items[j].productId;
    }
  }

  // ----- updateCartQuantity -----

  /**
   * The new quantity replaces the old one (it is not added to it), the line's
   * subtotal becomes price times quantity, no other line changes, and the total
   * moves by the change in that subtotal.
   */
  lemma RepriceReplacesOneLine(items: seq<CartItem>, i: nat, quantity: int, price: int)
    requires i < |items|
    ensures var r := Reprice(items, i, quantity, price);
      && |r| == |items|
      && r[i] == CartItem(items[i].productId, quantity, price * quantity)
      && (forall j :: 0 <= j < |items| && j != i ==> r[j] == items[j])
      && Total(r) == Total(items) - items[i].subtotal + price * quantity
  {
    TotalUpdate(items, i, items[i].(quantity := quantity, subtotal := price * quantity));
  }

  /** Repricing keeps product ids distinct, and a valid cart stays valid for a positive quantity at a non-negative price. */
  lemma RepriceKeepsInvariants(items: seq<CartItem>, i: nat, quantity: int, price: int)
    requires i < |items|
    ensures Distinct(items) ==> Distinct(Reprice(items, i, quantity, price))
    ensures ValidItems(items) && quantity >= MinQuantity && price >= 0 ==>
      ValidItems(Reprice(items, i, quantity, price))
  {
    var r := Reprice(items, i, quantity, price);
    assert forall j :: 0 <= j < |r| ==> r[j].productId == items[j].productId;
  }

  // ----- removeFromCart -----

  /**
   * Splicing out the first line for a product removes exactly that line, keeps
   * the rest in their relative order, and lowers the total by its subtotal; in
   * a cart with distinct product ids no line for the product remains.
   */
  lemma RemoveFirstMatch(items: seq<CartItem>, productId: ObjectId)
    requires IndexOf(items, productId) >= 0
    ensures var i, r := IndexOf(items, productId), RemoveAt(items, IndexOf(items, productId));
      && |r| == |items| - 1
      && (forall j :: 0 <= j < i ==> r[j] == items[j])
      && (forall j :: i <= j < |r| ==> r[j] == items[j + 1])
      && Total(r) == Total(items) - items[i].subtotal
      && (Distinct(items) ==> Distinct(r) && IndexOf(r, productId) == -1)
      && (ValidItems(items) ==> ValidItems(r))
  {
    var i := IndexOf(items, productId);
    var r := RemoveAt(items, i);
    TotalAround(items, i);
    TotalAppend(items[..i], items[i + 1..]);
    RemoveAtKeepsOrder(items, i);
    if ValidItems(items) {
      RemoveAtKeepsValidItems(items, i);
    }
    if Distinct(items) {
      RemoveAtKeepsDistinct(items, productId);
    }
  }

  lemma RemoveAtKeepsOrder(items: seq<CartItem>, i: nat)
    requires i < |items|
    ensures |RemoveAt(items, i)| == |items| - 1
    ensures forall j :: 0 <= j < |items| - 1 ==> RemoveAt(items, i)[j] == items[if j < i then j else j + 1]
  {
  }

  /** With distinct ids, splicing out the product's line leaves ids distinct and no line for the product. */
  lemma RemoveAtKeepsDistinct(items: seq<CartItem>, productId: ObjectId)
    requires IndexOf(items, productId) >= 0 && Distinct(items)
    ensures Distinct(RemoveAt(items, IndexOf(items, productId)))
    ensures IndexOf(RemoveAt(items, IndexOf(items, productId)), productId) == -1
  {
    var i := IndexOf(items, productId);
    RemoveAtKeepsOrder(items, i);
  }

  /** Splicing out a line keeps the remaining lines valid. */
  lemma RemoveAtKeepsValidItems(items: seq<CartItem>, i: nat)
    requires i < |items| && ValidItems(items)
    ensures ValidItems(RemoveAt(items, i))
  {
    RemoveAtKeepsOrder(items, i);
  }
}
