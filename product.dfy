/**
 * The product catalogue of controllers/product.js: creating a product, the
 * partial update, the active/archived flag, and the two queries that filter the
 * collection (active products, products in a price range), with the input
 * checks of the search handlers.
 */
module ProductController {
  import opened Wrappers
  import opened Api

  /** A catalogue entry; `isActive` is the active/archived flag. */
  datatype Product = Product(name: string, description: Option<string>, price: int, isActive: bool)

  /** The fields a partial update sets (`$set: updates`); `None` leaves a field alone. */
  datatype ProductUpdates = ProductUpdates(name: Option<string>, description: Option<string>, price: Option<int>)

  /** A JSON number as the price search receives it: absent, not a number, or a number. */
  datatype NumberInput = Undefined | NotANumber | Number(value: int)

  /** JavaScript truthiness of an optional string: present and non-empty. */
  predicate TruthyText(s: Option<string>) {
    s.Some? && s.value != ""
  }

  /** JavaScript truthiness of an optional number: present and non-zero. */
  predicate TruthyNumber(n: Option<int>) {
    n.Some? && n.value != 0
  }

  /** The product with the supplied fields overwritten (`findByIdAndUpdate` with `$set`). */
  function ApplyUpdates(p: Product, u: ProductUpdates): Product
  {
    Product(
      u.name.GetOr(p.name),
      if u.description.Some? then u.description else p.description,
      u.price.GetOr(p.price),
      p.isActive)
  }

  /** The updates object built field by field from the request: only truthy fields go in. */
  method BuildUpdates(name: Option<string>, description: Option<string>, price: Option<int>) returns (updates: ProductUpdates)
    ensures updates.name.Some? <==> TruthyText(name)
    ensures updates.description.Some? <==> TruthyText(description)
    ensures updates.price.Some? <==> TruthyNumber(price)
    ensures updates.name.Some? ==> updates.name == name
    ensures updates.description.Some? ==> updates.description == description
    ensures updates.price.Some? ==> updates.price == price
  {
    updates := ProductUpdates(None, None, None);
    if TruthyText(name) {
      updates := updates.(name := name);
    }
    if TruthyText(description) {
      updates := updates.(description := description);
    }
    if TruthyNumber(price) {
      updates := updates.(price := price);
    }
  }

  /** archiveProduct (controllers/product.js:95-126) on the collection. */
  function ArchiveRule(products: map<ObjectId, Product>, id: ObjectId): (int, map<ObjectId, Product>)
  {
    if id !in products then (NotFound, products)
    else if !products[id].isActive then (Ok, products)
    else (Ok, products[id := products[id].(isActive := false)])
  }

  /** activateProduct (controllers/product.js:129-159) on the collection. */
  function ActivateRule(products: map<ObjectId, Product>, id: ObjectId): (int, map<ObjectId, Product>)
  {
    if id !in products then (NotFound, products)
    else if products[id].isActive then (Ok, products)
    else (Ok, products[id := products[id].(isActive := true)])
  }

  /** getActiveProducts: exactly the products whose flag is set. */
  function ActiveProducts(products: map<ObjectId, Product>): (r: map<ObjectId, Product>)
    ensures forall id :: id in r <==> id in products && products[id].isActive
    ensures forall id :: id in r ==> r[id] == products[id]
  {
    map id | id in products && products[id].isActive :: products[id]
  }

  /** The price-range query `{ price: { $gte: minPrice, $lte: maxPrice } }`. */
  function InPriceRange(products: map<ObjectId, Product>, minPrice: int, maxPrice: int): (r: map<ObjectId, Product>)
    ensures forall id :: id in r <==> id in products && minPrice <= products[id].price <= maxPrice
    ensures forall id :: id in r ==> r[id] == products[id]
  {
    map id | id in products && minPrice <= products[id].price <= maxPrice :: products[id]
  }

  /** Whether a price bound passes searchByPrice's checks: present, a number, not negative. */
  predicate ValidBound(n: NumberInput) {
    n.Number? && n.value >= 0
  }

  /** searchByPrice (controllers/product.js:192-235). */
  function SearchByPrice(products: map<ObjectId, Product>, minPrice: NumberInput, maxPrice: NumberInput): (r: Outcome<map<ObjectId, Product>>)
    ensures r.Failure? && r.status == BadRequest <==> !ValidBound(minPrice) || !ValidBound(maxPrice)
    ensures r.Failure? ==> r.status in {BadRequest, NotFound}
    ensures r.Failure? && r.status == NotFound <==>
      ValidBound(minPrice) && ValidBound(maxPrice)
      && forall id :: id in products ==> !(minPrice.value <= products[id].price <= maxPrice.value)
    ensures r.Success? ==>
      r.status == Ok && r.value != map[]
      && forall id :: id in r.value <==> id in products && minPrice.value <= products[id].price <= maxPrice.value
    ensures r.Success? ==> r.value == InPriceRange(products, minPrice.value, maxPrice.value)
  {
    if minPrice.Undefined? || maxPrice.Undefined? then Failure(BadRequest)
    else if minPrice.NotANumber? || maxPrice.NotANumber? || minPrice.value < 0 || maxPrice.value < 0 then Failure(BadRequest)
    else
      var found := InPriceRange(products, minPrice.value, maxPrice.value);
      if found == map[] then Failure(NotFound)
      else
        Success(Ok, found)
  }

  /** The whitespace `String.prototype.trim` removes. */
  predicate IsWhitespace(c: char) {
    c in {' ', '\t', '\n', '\r', '\U{000B}', '\U{000C}', '\U{00A0}', '\U{1680}', '\U{2028}', '\U{2029}',
          '\U{202F}', '\U{205F}', '\U{3000}', '\U{FEFF}'}
    || '\U{2000}' <= c <= '\U{200A}'
  }

  /** Whether `s.trim()` is empty. */
  function Blank(s: string): (r: bool)
    ensures r <==> forall i :: 0 <= i < |s| ==> IsWhitespace(s[i])
  {
    if s == [] then true
    else IsWhitespace(s[0]) && Blank(s[1..])
  }

  /** searchByName's check on the name (controllers/product.js:165-167): present, and not only whitespace. */
  function SearchNameAccepted(name: Option<string>): (ok: bool)
    ensures ok <==> name.Some? && exists i :: 0 <= i < |name.value| && !IsWhitespace(name.value[i])
  {
    name.Some? && !Blank(name.value)
  }

  // ===== what the rules promise =====

  /** Archiving twice is archiving once. */
  lemma ArchiveIdempotent(products: map<ObjectId, Product>, id: ObjectId)
    ensures ArchiveRule(ArchiveRule(products, id).1, id) == ArchiveRule(products, id)
  {
  }

  /** Activating twice is activating once. */
  lemma ActivateIdempotent(products: map<ObjectId, Product>, id: ObjectId)
    ensures ActivateRule(ActivateRule(products, id).1, id) == ActivateRule(products, id)
  {
  }

  /** Activating an archived product restores the product as it was before it was archived. */
  lemma ActivateUndoesArchive(products: map<ObjectId, Product>, id: ObjectId)
    requires id in products && products[id].isActive
    ensures ActivateRule(ArchiveRule(products, id).1, id) == (Ok, products)
  {
    assert products[id := products[id].(isActive := false)][id := products[id]] == products;
  }

  /** An archived product leaves the active listing and an activated one joins it; no other product moves. */
  lemma ArchiveAndActivateListing(products: map<ObjectId, Product>, id: ObjectId)
    requires id in products
    ensures id !in ActiveProducts(ArchiveRule(products, id).1)
    ensures id in ActiveProducts(ActivateRule(products, id).1)
    ensures forall other :: other != id ==>
      (other in ActiveProducts(ArchiveRule(products, id).1) <==> other in ActiveProducts(products))
      && (other in ActiveProducts(ActivateRule(products, id).1) <==> other in ActiveProducts(products))
  {
  }

  /** A partial update changes exactly the truthy fields of the request and never the flag. */
  lemma UpdateChangesOnlySuppliedFields(p: Product, name: Option<string>, description: Option<string>, price: Option<int>, updates: ProductUpdates)
    requires updates.name.Some? <==> TruthyText(name)
    requires updates.description.Some? <==> TruthyText(description)
    requires updates.price.Some? <==> TruthyNumber(price)
    requires updates.name.Some? ==> updates.name == name
    requires updates.description.Some? ==> updates.description == description
    requires updates.price.Some? ==> updates.price == price
    ensures var r := ApplyUpdates(p, updates);
      && r.isActive == p.isActive
      && r.name == (if TruthyText(name) then name.value else p.name)
      && r.description == (if TruthyText(description) then description else p.description)
      && r.price == (if TruthyNumber(price) then price.value else p.price)
  {
  }

  // ===== the collection =====

  /** The product collection, with the next id to hand out. */
  class Catalog {
    var products: map<ObjectId, Product>
    var nextId: ObjectId

    ghost predicate Valid()
      reads this
    {
      forall id :: id in products ==> id < nextId
    }

    constructor ()
      ensures Valid() && products == map[]
    {
      products := map[];
      nextId := 0;
    }

    /** createProduct: name and price must be truthy (so a price of 0 is refused); a new product is active. */
    method CreateProduct(name: Option<string>, description: Option<string>, price: Option<int>) returns (status: int, id: Option<ObjectId>)
      requires Valid()
      modifies this
      ensures Valid()
      ensures !TruthyText(name) || !TruthyNumber(price) ==>
        status == BadRequest && id == None && products == old(products)
      ensures TruthyText(name) && TruthyNumber(price) ==>
        && status == Created && id.Some? && id.value !in old(products)
        && products == old(products)[id.value := Product(name.value, description, price.value, true)]
    {
      if !TruthyText(name) || !TruthyNumber(price) {
        return BadRequest, None;
      }
      id := Some(nextId);
      products := products[nextId := Product(name.value, description, price.value, true)];
      nextId := nextId + 1;
      status := Created;
    }

    /** updateProduct: at least one truthy field, then `$set` of the truthy fields on an existing product. */
    method UpdateProduct(id: ObjectId, name: Option<string>, description: Option<string>, price: Option<int>) returns (status: int)
      requires Valid()
      modifies this
      ensures Valid() && nextId == old(nextId)
      ensures !TruthyText(name) && !TruthyText(description) && !TruthyNumber(price) ==>
        status == BadRequest && products == old(products)
      ensures (TruthyText(name) || TruthyText(description) || TruthyNumber(price)) && id !in old(products) ==>
        status == NotFound && products == old(products)
      ensures (TruthyText(name) || TruthyText(description) || TruthyNumber(price)) && id in old(products) ==>
        && status == Ok
        && products.Keys == old(products).Keys
        && products[id].isActive == old(products)[id].isActive
        && products[id].name == (if TruthyText(name) then name.value else old(products)[id].name)
        && products[id].description == (if TruthyText(description) then description else old(products)[id].description)
        && products[id].price == (if TruthyNumber(price) then price.value else old(products)[id].price)
        && forall other :: other in products && other != id ==> products[other] == old(products)[other]
    {
      if !TruthyText(name) && !TruthyText(description) && !TruthyNumber(price) {
        return BadRequest;
      }
      var updates := BuildUpdates(name, description, price);
      if id !in products {
        return NotFound;
      }
      UpdateChangesOnlySuppliedFields(products[id], name, description, price, updates);
      products := products[id := ApplyUpdates(products[id], updates)];
      status := Ok;
    }

    /** archiveProduct: clear the flag; an already archived product is left as it is. */
    method ArchiveProduct(id: ObjectId) returns (status: int)
      requires Valid()
      modifies this
      ensures Valid() && nextId == old(nextId)
      ensures (status, products) == ArchiveRule(old(products), id)
    {
      if id !in products {
        return NotFound;
      }
      if !products[id].isActive {
        return Ok;
      }
      products := products[id := products[id].(isActive := false)];
      status := Ok;
    }

    /** activateProduct: set the flag; an already active product is left as it is. */
    method ActivateProduct(id: ObjectId) returns (status: int)
      requires Valid()
      modifies this
      ensures Valid() && nextId == old(nextId)
      ensures (status, products) == ActivateRule(old(products), id)
    {
      if id !in products {
        return NotFound;
      }
      if products[id].isActive {
        return Ok;
      }
      products := products[id := products[id].(isActive := true)];
      status := Ok;
    }
  }
}
