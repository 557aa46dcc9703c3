/** The product document of backend/models/product.js. Prices are whole
    cents; the schema's timestamps are left out. */
module ProductModel {
  import opened Common

  datatype Product = Product(
    name: string,
    description: string,
    price: int,
    image: string,
    brand: string,
    category: string,
    countInStock: int,
    rating: int,
    numReviews: int,
    user: UserId)
  {
    /** The schema's `required` string fields are present: Mongoose's
        required validator refuses an empty string. Every number field and
        the owner are always present in this model. */
    predicate WellFormed() {
      name != "" && description != "" && image != "" && brand != "" && category != ""
    }
  }

  /** `new Product({...})`: a number field left undefined takes the schema's
      default of 0. */
  function NewProduct(
    name: string, description: string, price: Option<int>, image: string,
    brand: string, category: string, countInStock: Option<int>,
    rating: Option<int>, numReviews: Option<int>, user: UserId): (p: Product)
    ensures p.WellFormed() <==> name != "" && description != "" && image != "" && brand != "" && category != ""
    ensures price.None? ==> p.price == 0
    ensures countInStock.None? ==> p.countInStock == 0
    ensures rating.None? ==> p.rating == 0
    ensures numReviews.None? ==> p.numReviews == 0
    ensures price.Some? ==> p.price == price.value
    ensures countInStock.Some? ==> p.countInStock == countInStock.value
    ensures rating.Some? ==> p.rating == rating.value
    ensures numReviews.Some? ==> p.numReviews == numReviews.value
    ensures p.name == name && p.description == description && p.image == image
    ensures p.brand == brand && p.category == category && p.user == user
  {
    Product(name, description, OrZero(price), image, brand, category,
            OrZero(countInStock), OrZero(rating), OrZero(numReviews), user)
  }
}
