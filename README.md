# Online retail backend: cart, checkout, catalogue and user rules in Dafny

This project models the rules inside the request handlers of an Express/Mongoose
online-retail backend: the per-user shopping cart, checkout into orders, the
product catalogue, and user registration and administration. Each collection is
abstracted as a map from document id to record (or, for orders, a list), and
each handler runs as one atomic step that answers with an HTTP status.

- `CartSchema` (`cart_schema.dfy`): the cart and cart-line records of
  models/Cart.js and the validation Mongoose applies when a cart is saved
  (required fields, `quantity >= 1`, `subtotal >= 0`, `totalPrice` defaulting to 0).
- `CartLines` (`cart_lines.dfy`): the pure rules over a cart's lines: the total
  (`reduce` over the subtotals), the search for a product's line, merge-or-append,
  reprice, splice.
- `CartController` (`cart.dfy`): a `Cart` class for the cart document whose line
  list and total the handlers change in place, a `CartStore` class for the cart
  collection, and one pure rule per handler (`AddToCartRule`, ...) over the
  abstract collection `map<ObjectId, CartDoc>`. Each store method is proved to
  end in exactly the state and status its rule gives; the lemmas state what the
  rules promise.
- `OrderController` (`order.dfy`): checkout (snapshot the cart into an order, then
  empty the cart), the caller's orders, all orders for an admin.
- `ProductController` (`product.dfy`): the `Catalog` class (create, partial update,
  archive, activate) and the active-product and price-range queries with the
  search handlers' input checks.
- `UserController` (`user.dfy`): the `Directory` class (register, change password,
  promote to admin), the ordered registration checks, and the removal of the
  password from user objects in responses.

Modelling choices:

- Money and quantities are integers (think cents); ids are natural numbers.
- A request field the body leaves out is `None`. JavaScript truthiness is
  written out: a string is truthy when present and non-empty, a number when
  present and non-zero.
- Mongoose checks the schema when a document is saved. The handlers change the
  in-memory cart first and then save; when the save is refused (status 500) the
  stored cart is unchanged. The store methods therefore check the changed lines
  before committing them, which gives the same stored state.
- In `addToCart` a missing product id, quantity or subtotal always ends in 500:
  on a new cart the line fails validation, and on an existing cart the
  `undefined` reaches the document (as a missing id or a `NaN` sum) and the
  save is refused.
- `addToCart` trusts the subtotal the client sends, so the model does too. It
  still calls `Product.findById`, but the check on its result and the
  server-side price computation are commented out, so a line may name a
  product the collection does not hold. Only `updateCartQuantity` prices a line
  from the product.
- `setAsAdmin` has no admin guard, neither in the handler nor on its route
  (both are only commented "admin only"), so `Directory.SetAsAdmin` takes no
  caller.
- The schemas of products, users and orders are not part of this model. A new
  product is taken to be active and a new user not to be an admin, which is
  what `getActiveProducts`, `archiveProduct` and the admin checks presuppose.
- New product and user ids come from a counter (`nextId`), standing for
  MongoDB's id generation.
- The bcrypt hash of a password is an input (`passwordHash`) of `Register` and
  `UpdatePassword`.

## Model

| member | source | states |
|---|---|---|
| `CartSchema.ValidateItem` | models/Cart.js:3-19 | a line validates exactly when product id, quantity and subtotal are all present, quantity >= 1 and subtotal >= 0, and then it keeps those values |
| `CartSchema.ValidateItems` | models/Cart.js:27 | a list of lines validates exactly when every line does, keeping length and order |
| `CartSchema.ValidateCart` | models/Cart.js:21-37 | a cart validates exactly when its userId is present and its lines validate; an absent totalPrice becomes 0 |
| `CartSchema.NewCartTotalDefaultsToZero` | models/Cart.js:28-32 | any cart built without a total whose lines validate is stored with those lines and totalPrice 0 |
| `CartLines.IndexOf` | controllers/cart.js:51-53 | the result is -1 exactly when no line has the product, and otherwise the index of the first line that has it |
| `CartLines.TotalAppend` | controllers/cart.js:67 | the reduce total of two concatenated line lists is the sum of their totals |
| `CartLines.TotalNonNegative` | controllers/cart.js:67 | the total of valid lines is never negative |
| `CartLines.TotalUpdate` | controllers/cart.js:149 | replacing one line moves the total by the change in that line's subtotal |
| `CartLines.MergeIntoExistingLine` | controllers/cart.js:51-57 | adding a product already in the cart adds quantity and subtotal to its line, keeps the number of lines and every other line, and raises the total by the incoming subtotal |
| `CartLines.MergeAppendsNewLine` | controllers/cart.js:58-64 | adding a product not in the cart appends exactly one line at the end, keeps the existing lines in order, and raises the total by the new subtotal |
| `CartLines.MergeKeepsDistinct` | controllers/cart.js:51-64 | merge-or-append keeps product ids pairwise distinct and leaves the product with a line |
| `CartLines.RepriceReplacesOneLine` | controllers/cart.js:145-149 | the new quantity replaces the old, the subtotal becomes price x quantity, no other line changes, the total moves by the subtotal's change |
| `CartLines.RepriceKeepsInvariants` | controllers/cart.js:145-146 | repricing keeps ids distinct, and keeps valid lines valid for quantity >= 1 at a non-negative price |
| `CartLines.RemoveFirstMatch` | controllers/cart.js:180-194 | splicing removes exactly the first line with the product, keeps the others in order, lowers the total by its subtotal, keeps lines valid, and with distinct ids no line for the product remains |
| `CartLines.RemoveAtKeepsDistinct` | controllers/cart.js:180-188 | with distinct ids, splicing out the product's first line leaves ids distinct and no line for that product |
| `CartController.GetCart` | controllers/cart.js:87-113 | 500 exactly when the user's cart has a line whose product is not in the collection (the populated reference is null and reading its `_id` throws); otherwise 200 with [] exactly when the user has no cart, else the one-element list holding the user's cart |
| `CartController.AdminCannotAddToCart` | controllers/cart.js:11 | an admin caller gets 403 and no cart is created or changed |
| `CartController.AddCreatesCartWithOneLine` | controllers/cart.js:26-35 | a user without a cart gets 201 and a new cart holding exactly the incoming line with total equal to its subtotal; other carts unchanged |
| `CartController.AddRejectsInvalidNewLine` | controllers/cart.js:37-47 | a new cart whose line fails the schema is refused with 500 and nothing is stored |
| `CartController.AddToCartKeepsWellFormed` | controllers/cart.js:5-82 | after addToCart every cart still has valid lines, distinct product ids and totalPrice equal to the sum of its subtotals |
| `CartController.UpdateCartQuantityKeepsWellFormed` | controllers/cart.js:118-167 | after updateCartQuantity every cart still has valid lines, distinct ids and total = sum of subtotals |
| `CartController.RemoveFromCartKeepsWellFormed` | controllers/cart.js:170-214 | after removeFromCart every cart still has valid lines, distinct ids and total = sum of subtotals |
| `CartController.ClearCartEmpties` | controllers/cart.js:225-233 | clearCart leaves the caller's cart with no lines and total 0, no other cart changes, and the collection stays well formed |
| `CartController.UpdateCartQuantityRefusals` | controllers/cart.js:122-135 | 400 exactly when the product id or quantity is missing or quantity < 1; otherwise a missing cart or line gives 404; every refusal leaves the carts unchanged |
| `CartController.UpdateCartQuantityReplaces` | controllers/cart.js:138-149 | a successful update sets the line to (product, quantity, price x quantity), changes no other line, and moves the total by the subtotal's change |
| `CartController.RemoveMissingLineIsNotFound` | controllers/cart.js:180-185 | when no line holds the product, removeFromCart answers 404 and nothing changes |
| `CartController.Cart.constructor` | controllers/cart.js:27-35 | a new cart document holds the validated lines and total |
| `CartController.Cart.AddLine` | controllers/cart.js:51-67 | the line list becomes the merge-or-append of the old one and the total its sum; ids stay distinct |
| `CartController.Cart.SetQuantity` | controllers/cart.js:145-149 | the line list becomes the repriced old list and the total its sum; ids stay distinct |
| `CartController.Cart.RemoveLine` | controllers/cart.js:188-194 | the line list loses exactly line i and the total is its sum; ids stay distinct |
| `CartController.Cart.Empty` | controllers/cart.js:230-231 | the line list becomes empty and the total 0 |
| `CartController.CartStore.AddToCart` | controllers/cart.js:5-82 | status and new collection are exactly those of AddToCartRule; the store invariant is kept |
| `CartController.CartStore.CreateCart` | controllers/cart.js:26-48 | status and new collection are exactly those of CreateCartRule: a new cart with the one validated line, or 500 with nothing stored |
| `CartController.CartStore.AddToExistingCart` | controllers/cart.js:51-75 | status and new collection are exactly those of AddToExistingCartRule: merge-or-append committed only when the save validates, else 500 unchanged |
| `CartController.CartStore.UpdateCartQuantity` | controllers/cart.js:118-167 | status and new collection are exactly those of UpdateCartQuantityRule; the store invariant is kept |
| `CartController.CartStore.RemoveFromCart` | controllers/cart.js:170-214 | status and new collection are exactly those of RemoveFromCartRule (401 without a user) |
| `CartController.CartStore.ClearCart` | controllers/cart.js:220-250 | status and new collection are exactly those of ClearCartRule (401 without a user, 404 without a cart) |
| `OrderController.CheckoutRefusals` | controllers/order.js:11-23 | an admin gets 403, a missing cart 404, an empty cart 400, and then no order is created and no cart changes |
| `OrderController.CheckoutSnapshotsThenResets` | controllers/order.js:25-37 | a successful checkout appends one order with the cart's lines and total as they were, then the cart has no lines and total 0; other carts unchanged |
| `OrderController.CheckoutKeepsInvariants` | controllers/order.js:8-46 | checkout keeps the carts well formed, and every order is non-empty with total = sum of its lines |
| `OrderController.CheckoutThenMyOrders` | controllers/order.js:25-60 | after a successful checkout the caller's order list is found and contains the new order |
| `OrderController.Checkout` | controllers/order.js:8-46 | status, carts and orders are exactly those of CheckoutRule: the order is appended before the cart is emptied in place |
| `OrderController.OrdersOf` | controllers/order.js:54 | holds exactly the orders of the user, each as many times as in the collection |
| `OrderController.GetMyOrders` | controllers/order.js:51-66 | 404 exactly when the user has no order; otherwise 200 with exactly the user's orders in collection order, each as many times as stored |
| `OrderController.GetAllOrders` | controllers/order.js:71-88 | 403 exactly for a non-admin, 404 exactly for an admin when there are no orders, else 200 with every order |
| `ProductController.BuildUpdates` | controllers/product.js:68-71 | a field enters the update exactly when the request's value is truthy, and with that value |
| `ProductController.UpdateChangesOnlySuppliedFields` | controllers/product.js:68-77 | applying the update overwrites exactly the truthy fields and leaves the others and the active flag unchanged |
| `ProductController.ActiveProducts` | controllers/product.js:34 | holds exactly the products whose isActive is true |
| `ProductController.InPriceRange` | controllers/product.js:209-213 | holds exactly the products with minPrice <= price <= maxPrice |
| `ProductController.SearchByPrice` | controllers/product.js:192-235 | 400 exactly when a bound is missing, not a number or negative; 404 exactly when the bounds are valid and no price is in range; otherwise 200 with exactly the products in range, as stored |
| `ProductController.Blank` | controllers/product.js:165 | true exactly when every character is whitespace that trim removes |
| `ProductController.SearchNameAccepted` | controllers/product.js:165-167 | a name is accepted exactly when present with a character that is not whitespace |
| `ProductController.ArchiveIdempotent` | controllers/product.js:107-116 | archiving twice equals archiving once |
| `ProductController.ActivateIdempotent` | controllers/product.js:141-150 | activating twice equals activating once |
| `ProductController.ActivateUndoesArchive` | controllers/product.js:107-150 | activating an archived active product restores the collection as it was |
| `ProductController.ArchiveAndActivateListing` | controllers/product.js:34-150 | an archived product is not listed as active, an activated one is, and no other product's listing changes |
| `ProductController.Catalog.CreateProduct` | controllers/product.js:8-15 | 400 with nothing stored when the name or the price is falsy (so price 0 is refused); otherwise 201 and exactly one new active product under a fresh id |
| `ProductController.Catalog.UpdateProduct` | controllers/product.js:57-91 | 400 when no field is truthy, then 404 for an unknown id, both with the store unchanged; otherwise only the truthy fields of that product change |
| `ProductController.Catalog.ArchiveProduct` | controllers/product.js:95-126 | status and collection are those of ArchiveRule: 404 unchanged for an unknown id, no change when already archived, else isActive becomes false |
| `ProductController.Catalog.ActivateProduct` | controllers/product.js:129-159 | status and collection are those of ActivateRule: 404 unchanged for an unknown id, no change when already active, else isActive becomes true |
| `UserController.CheckRegistration` | controllers/user.js:11-26 | registration passes exactly when all four checks pass, and each error is returned exactly when its check is the first in source order to fail |
| `UserController.ShortPasswordRefused` | controllers/user.js:19-21 | a password shorter than 8 characters is refused once email and mobile number passed |
| `UserController.WithoutPassword` | controllers/user.js:46-47 | the object has no password field and every other field unchanged |
| `UserController.PublicViewHidesOnlyPassword` | controllers/user.js:46-47 | the user object of a response has exactly the fields id, names, email, mobile number and admin flag with the user's values, whatever the stored hash |
| `UserController.GetUserDetails` | controllers/user.js:91-114 | 404 exactly for an unknown id; otherwise 200 with the user's object: every modelled field of the user except the password |
| `UserController.SetAsAdminIdempotent` | controllers/user.js:121-129 | promotion is idempotent, 404 leaves users unchanged, and only the flag of that user changes |
| `UserController.Directory.Register` | controllers/user.js:8-54 | the checks decide 400; a registered email gives 409 with no user added; otherwise 201, exactly one new non-admin user, emails stay unique, and the returned object has no password |
| `UserController.Directory.UpdatePassword` | controllers/user.js:145-178 | a missing or short password gives 400 before the lookup, an unknown user 404, both unchanged; otherwise only that user's password hash changes |
| `UserController.Directory.SetAsAdmin` | controllers/user.js:118-141 | status and users are those of SetAsAdminRule: 404 unchanged for an unknown id, else isAdmin becomes true |

## Left out

- Database I/O (`findOne`, `findById`, `save`, `populate`, `findByIdAndUpdate`), the promise plumbing and `console` logging: each handler is one atomic step with one response; a failing database call (500) and concurrent requests are not modelled.
- The double responses the source sends after an early 404 in `updateCartQuantity` (product missing), `removeFromCart` and `clearCart` (cart missing; the returned response object is truthy, so the 200 branch runs too): the model answers the first response only.
- Checkout saves the order and then the cart in two writes; a failure between them (order saved, cart not reset) is not modelled.
- Malformed ObjectIds (which make a lookup throw) and non-string JSON values in string fields are not modelled; every id is well formed and every present text field is a string.
- `CartLines.IndexOf`: request product ids are taken in canonical lower-case hex form and compared as values. The source compares `productId.toString()` (lower case) with the request string, so an id written in upper-case hex misses its line: `addToCart` then appends a second line for the same product (breaking the distinct-ids property), and `updateCartQuantity` and `removeFromCart` answer 404 although the line exists.
- String values in number fields are not modelled. With `quantity: "2"`, the `+=` in `addToCart` concatenates (5 becomes "52", stored as 52) instead of adding.
- JavaScript numbers are floating point; prices, subtotals and quantities are integers here, so `NaN`, fractions and rounding are not modelled. A JSON `null` price bound, which the source reads as 0, is the `Number(0)` input.
- String lengths count Unicode scalar values, where JavaScript counts UTF-16 code units.
- `UserController.PublicViewHidesOnlyPassword`: the user object has exactly the six modelled fields only in the model; `toObject()` also returns `__v` and whatever else the User schema (not part of this model) declares.
- `searchByName`'s case-insensitive `$regex` match: only its check on the name is modelled.
- `loginUser`: bcrypt comparison and JWT creation are foreign library calls; its email check is the same as registration's and is not modelled separately.
- `getAllProducts` and `getProductById`: plain reads of the collection, outside the modelled rules.
- The `_id`/`__v`/`orderedOn` fields of `getCart`'s formatting and the `orderedOn` timestamps of carts and orders.
- index.js, the routes and the token middleware: the middleware's admin-only guards on product routes are not modelled (the set-as-admin route has none); the handlers receive the caller it decodes.
