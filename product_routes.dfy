/** backend/routes/productRoutes.js (duplicated inline in backend/server.js):
    the product catalog and its handlers. The catalog is the product
    collection held in memory, keyed by product id. */
module ProductRoutes {
  import opened Common
  import opened ProductModel
  import AuthMiddleware

  /** The JSON body of a create or update request; None stands for a field
      left undefined. */
  datatype ProductBody = ProductBody(
    name: Option<string>,
    price: Option<int>,
    description: Option<string>,
    image: Option<string>,
    brand: Option<string>,
    category: Option<string>,
    countInStock: Option<int>)

  /** The create handler's validation: name, price, description, image,
      brand and category must be truthy (so a price of 0 is refused) and
      countInStock must be defined (so a stock of 0 is accepted). */
  predicate RequiredFieldsPresent(body: ProductBody)
    ensures RequiredFieldsPresent(body) ==> body.price.Some? && body.price.value != 0
    ensures RequiredFieldsPresent(body) ==> body.countInStock.Some?
  {
    && Truthy(body.name) && TruthyNumber(body.price) && Truthy(body.description)
    && Truthy(body.image) && Truthy(body.brand) && Truthy(body.category)
    && body.countInStock.Some?
  }

  /** The document the create handler saves: the supplied fields, the caller
      as owner, no reviews yet and the schema's default rating. */
  function CreatedProduct(body: ProductBody, owner: UserId): (p: Product)
    requires RequiredFieldsPresent(body)
    ensures p.WellFormed()
    ensures p.user == owner && p.numReviews == 0 && p.rating == 0
    ensures p.name == body.name.value && p.price == body.price.value
    ensures p.description == body.description.value && p.image == body.image.value
    ensures p.brand == body.brand.value && p.category == body.category.value
    ensures p.countInStock == body.countInStock.value
  {
    NewProduct(body.name.value, body.description.value, body.price, body.image.value,
               body.brand.value, body.category.value, body.countInStock, None, Some(0), owner)
  }

  /** `field || product.field`. */
  function OrKeep(field: Option<string>, current: string): string {
    if Truthy(field) then field.value else current
  }

  /** The update handler's field merge: each descriptive field and the price
      are replaced only by a truthy value; countInStock is replaced whenever
      it is defined, 0 and negative values included. */
  function Merged(p: Product, body: ProductBody): (q: Product)
    ensures q.name == (if Truthy(body.name) then body.name.value else p.name)
    ensures q.price == (if TruthyNumber(body.price) then body.price.value else p.price)
    ensures q.description == (if Truthy(body.description) then body.description.value else p.description)
    ensures q.image == (if Truthy(body.image) then body.image.value else p.image)
    ensures q.brand == (if Truthy(body.brand) then body.brand.value else p.brand)
    ensures q.category == (if Truthy(body.category) then body.category.value else p.category)
    ensures q.countInStock == (if body.countInStock.Some? then body.countInStock.value else p.countInStock)
    ensures q.rating == p.rating && q.numReviews == p.numReviews && q.user == p.user
    ensures p.WellFormed() ==> q.WellFormed()
  {
    p.(name := OrKeep(body.name, p.name),
       price := if TruthyNumber(body.price) then body.price.value else p.price,
       description := OrKeep(body.description, p.description),
       image := OrKeep(body.image, p.image),
       brand := OrKeep(body.brand, p.brand),
       category := OrKeep(body.category, p.category),
       countInStock := if body.countInStock.Some? then body.countInStock.value else p.countInStock)
  }

  /** Sending the same update twice has the effect of sending it once. */
  lemma MergeIdempotent(p: Product, body: ProductBody)
    ensures Merged(Merged(p, body), body) == Merged(p, body)
  {
  }

  /** An update whose fields are all falsy or undefined changes nothing. */
  lemma MergeOfFalsyBody(p: Product, body: ProductBody)
    requires !Truthy(body.name) && !TruthyNumber(body.price) && !Truthy(body.description)
    requires !Truthy(body.image) && !Truthy(body.brand) && !Truthy(body.category)
    requires body.countInStock.None?
    ensures Merged(p, body) == p
  {
  }

  class Catalog {
    var products: map<ProductId, Product>

    constructor ()
      ensures products == map[]
      ensures Valid()
    {
      products := map[];
    }

    /** Every stored product passed the schema's required-field validation. */
    ghost predicate Valid()
      reads this
    {
      forall id :: id in products ==> products[id].WellFormed()
    }

    /** GET /:id: the product, or 404. */
    function GetById(id: ProductId): (r: Reply<Product>)
      reads this
      ensures r.Success? <==> id in products
      ensures r.Success? ==> r == Success(OK, products[id])
      ensures id !in products ==> r == Failure(ProductNotFound) && r.message.Status() == NOT_FOUND
      ensures Valid() && r.Success? ==> r.body.WellFormed()
    {
      if id in products then Success(OK, products[id]) else Failure(ProductNotFound)
    }

    /** POST / behind `admin`. The store supplies the fresh id. */
    method Create(caller: Option<User>, body: ProductBody, id: ProductId) returns (reply: Reply<Product>)
      requires id !in products
      modifies this
      ensures AuthMiddleware.AdminGate(caller).Reject? ==>
                reply == Failure(NotAuthorizedAsAdmin) && products == old(products)
      ensures AuthMiddleware.AdminGate(caller).Next? && !RequiredFieldsPresent(body) ==>
                reply == Failure(MissingProductFields) && products == old(products)
      ensures AuthMiddleware.AdminGate(caller).Next? && RequiredFieldsPresent(body) ==>
                var p := CreatedProduct(body, caller.value.id);
                reply == Success(CREATED, p) && products == old(products)[id := p]
      ensures old(Valid()) ==> Valid()
    {
      var gate := AuthMiddleware.AdminGate(caller);
      if gate.Reject? {
        return Failure(gate.message);
      }
      if !RequiredFieldsPresent(body) {
        return Failure(MissingProductFields);
      }
      var product := CreatedProduct(body, caller.value.id);
      products := products[id := product];
      reply := Success(CREATED, product);
    }

    /** PUT /:id behind `admin`: merge the body into the stored product. */
    method Update(caller: Option<User>, id: ProductId, body: ProductBody) returns (reply: Reply<Product>)
      modifies this
      ensures AuthMiddleware.AdminGate(caller).Reject? ==>
                reply == Failure(NotAuthorizedAsAdmin) && products == old(products)
      ensures AuthMiddleware.AdminGate(caller).Next? && id !in old(products) ==>
                reply == Failure(ProductNotFound) && products == old(products)
      ensures AuthMiddleware.AdminGate(caller).Next? && id in old(products) ==>
                var q := Merged(old(products)[id], body);
                reply == Success(OK, q) && products == old(products)[id := q]
      ensures old(Valid()) ==> Valid()
    {
      var gate := AuthMiddleware.AdminGate(caller);
      if gate.Reject? {
        return Failure(gate.message);
      }
      if id !in products {
        return Failure(ProductNotFound);
      }
      var product := products[id];
      var q := product.(name := OrKeep(body.name, product.name));
      q := q.(price := if TruthyNumber(body.price) then body.price.value else q.price);
      q := q.(description := OrKeep(body.description, q.description));
      q := q.(image := OrKeep(body.image, q.image));
      q := q.(brand := OrKeep(body.brand, q.brand));
      q := q.(category := OrKeep(body.category, q.category));
      q := q.(countInStock := if body.countInStock.Some? then body.countInStock.value else q.countInStock);
      products := products[id := q];
      reply := Success(OK, q);
    }

    /** DELETE /:id behind `admin`: remove exactly that product. */
    method Delete(caller: Option<User>, id: ProductId) returns (reply: Reply<Message>)
      modifies this
      ensures AuthMiddleware.AdminGate(caller).Reject? ==>
                reply == Failure(NotAuthorizedAsAdmin) && products == old(products)
      ensures AuthMiddleware.AdminGate(caller).Next? && id !in old(products) ==>
                reply == Failure(ProductNotFound) && products == old(products)
      ensures AuthMiddleware.AdminGate(caller).Next? && id in old(products) ==>
                reply == Success(OK, ProductRemoved) && products == old(products) - {id}
      ensures forall other :: other != id && other in old(products) ==> other in products && products[other] == old(products)[other]
      ensures old(Valid()) ==> Valid()
    {
      var gate := AuthMiddleware.AdminGate(caller);
      if gate.Reject? {
        return Failure(gate.message);
      }
      if id !in products {
        return Failure(ProductNotFound);
      }
      products := products - {id};
      reply := Success(OK, ProductRemoved);
    }
  }
}
