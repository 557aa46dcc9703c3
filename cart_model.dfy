/** The cart document of backend/models/Cart.js: one cart per user holding an
    ordered list of lines, each a snapshot of a product taken when it was added. */
module CartModel {
  import opened Common

  datatype CartItem = CartItem(product: ProductId, name: string, image: string, price: int, qty: int)

  const DEFAULT_QTY := 1

  /** A cart line built by Mongoose: `qty` left undefined defaults to 1. */
  function NewCartItem(product: ProductId, name: string, image: string, price: int, qty: Option<int>): (item: CartItem)
    ensures item.product == product && item.name == name && item.image == image && item.price == price
    ensures qty.None? ==> item.qty == DEFAULT_QTY
    ensures qty.Some? ==> item.qty == qty.value
  {
    CartItem(product, name, image, price, if qty.Some? then qty.value else DEFAULT_QTY)
  }

  datatype Cart = Cart(user: UserId, cartItems: seq<CartItem>)

  /** The cart collection, keyed by the `user` field; the schema makes that
      field unique, so the key determines the cart. */
  type CartTable = map<UserId, Cart>

  /** Every stored cart is filed under its own user. */
  predicate OneCartPerUser(carts: CartTable) {
    forall u :: u in carts ==> carts[u].user == u
  }

  /** At most one line per product id. */
  predicate UniqueProducts(items: seq<CartItem>) {
    forall i, j :: 0 <= i < j < |items| ==> items[i].product != items[j].product
  }

  /** Product ids mentioned by a list of lines. */
  predicate HasProduct(items: seq<CartItem>, pid: ProductId) {
    exists j :: 0 <= j < |items| && items[j].product == pid
  }
}
