/** backend/routes/cartRoutes.js (duplicated inline in backend/server.js):
    the per-user cart store and its handlers, for an authenticated caller. */
module CartRoutes {
  import opened Common
  import opened ProductModel
  import opened CartModel
  import ProductRoutes

  /** The lines the cart handlers keep: at most one per product, each for at
      least one unit. */
  predicate LinesValid(items: seq<CartItem>) {
    UniqueProducts(items) && forall j :: 0 <= j < |items| ==> items[j].qty >= 1
  }

  /** `findIndex(item => item.product === pid)`: the first line for the
      product, or -1 when there is none. */
  function IndexOf(items: seq<CartItem>, pid: ProductId): (k: int)
    ensures -1 <= k < |items|
    ensures k >= 0 ==> items[k].product == pid && forall j :: 0 <= j < k ==> items[j].product != pid
    ensures k == -1 <==> !HasProduct(items, pid)
    decreases |items|
  {
    if items == [] then -1
    else if items[0].product == pid then 0
    else
      var k := IndexOf(items[1..], pid);
      if k == -1 then -1 else k + 1
  }

  /** The loop behind `findIndex`. */
  method FindIndex(items: seq<CartItem>, pid: ProductId) returns (k: int)
    ensures k == IndexOf(items, pid)
  {
    k := 0;
    while k < |items|
      invariant 0 <= k <= |items|
      invariant forall j :: 0 <= j < k ==> items[j].product != pid
    {
      if items[k].product == pid {
        return;
      }
      k := k + 1;
    }
    k := -1;
  }

  /** A new line: name, image and price are copied from the product now and
      never resynchronised afterwards. */
  function SnapshotLine(pid: ProductId, product: Product, qty: int): (line: CartItem)
    ensures line.product == pid && line.qty == qty
    ensures line.name == product.name && line.image == product.image && line.price == product.price
  {
    CartItem(pid, product.name, product.image, product.price, qty)
  }

  /** The add handler's change to the line list: the first line for the
      product gets its quantity SET to qty (not incremented); without such a
      line a snapshot line is appended at the end. */
  function Upserted(items: seq<CartItem>, pid: ProductId, product: Product, qty: int): (r: seq<CartItem>)
    ensures |r| == if HasProduct(items, pid) then |items| else |items| + 1
    ensures HasProduct(r, pid) && r[IndexOf(r, pid)].qty == qty
    ensures forall j :: 0 <= j < |items| && items[j].product != pid ==> r[j] == items[j]
    ensures HasProduct(items, pid) ==>
              IndexOf(r, pid) == IndexOf(items, pid) &&
              r[IndexOf(r, pid)] == items[IndexOf(items, pid)].(qty := qty)
    ensures !HasProduct(items, pid) ==> r == items + [SnapshotLine(pid, product, qty)]
    ensures LinesValid(items) && qty >= 1 ==> LinesValid(r)
  {
    var k := IndexOf(items, pid);
    if k >= 0 then
      var r := items[k := items[k].(qty := qty)];
      IndexOfFirst(r, pid, k);
      r
    else
      var r := items + [SnapshotLine(pid, product, qty)];
      IndexOfFirst(r, pid, |items|);
      r
  }

  /** IndexOf is determined by "first line for the product". */
  lemma IndexOfFirst(items: seq<CartItem>, pid: ProductId, k: int)
    requires 0 <= k < |items| && items[k].product == pid
    requires forall j :: 0 <= j < k ==> items[j].product != pid
    ensures IndexOf(items, pid) == k
  {
  }

  /** Setting the quantity twice leaves the second quantity, not the sum,
      and keeps the snapshot taken when the line was first added. */
  lemma UpsertSetsNotAdds(items: seq<CartItem>, pid: ProductId, first: Product, second: Product, q1: int, q2: int)
    ensures Upserted(Upserted(items, pid, first, q1), pid, second, q2) == Upserted(items, pid, first, q2)
  {
    var r1 := Upserted(items, pid, first, q1);
    if HasProduct(items, pid) {
      var k := IndexOf(items, pid);
      assert r1 == items[k := items[k].(qty := q1)];
    } else {
      assert r1 == items + [SnapshotLine(pid, first, q1)];
      IndexOfFirst(r1, pid, |items|);
    }
  }

  /** `cartItems.filter(item => item.product !== pid)`: exactly the lines
      for other products survive. */
  function WithoutProduct(items: seq<CartItem>, pid: ProductId): (r: seq<CartItem>)
    ensures |r| <= |items|
    ensures forall x :: x in r <==> x in items && x.product != pid
    decreases |items|
  {
    if items == [] then []
    else
      var rest := WithoutProduct(items[1..], pid);
      assert forall x :: x in items <==> x == items[0] || x in items[1..];
      if items[0].product != pid then [items[0]] + rest else rest
  }

  lemma HasProductCons(items: seq<CartItem>, pid: ProductId)
    requires items != []
    ensures HasProduct(items, pid) <==> items[0].product == pid || HasProduct(items[1..], pid)
  {
    if HasProduct(items[1..], pid) {
      var j :| 0 <= j < |items[1..]| && items[1..][j].product == pid;
      assert items[j + 1].product == pid;
    }
    if HasProduct(items, pid) && items[0].product != pid {
      var j :| 0 <= j < |items| && items[j].product == pid;
      assert items[1..][j - 1].product == pid;
    }
  }

  /** The filter drops a line iff the cart has a line for the product: the
      length test the remove handler uses to answer 404. */
  lemma {:induction false} WithoutProductLength(items: seq<CartItem>, pid: ProductId)
    ensures |WithoutProduct(items, pid)| == |items| <==> !HasProduct(items, pid)
    decreases |items|
  {
    if items != [] {
      HasProductCons(items, pid);
      WithoutProductLength(items[1..], pid);
    }
  }

  /** A line for a product the valid rest does not mention, for at least
      one unit, can go in front of it. */
  lemma ConsKeepsLinesValid(head: CartItem, rest: seq<CartItem>)
    requires LinesValid(rest) && head.qty >= 1
    requires forall x :: x in rest ==> x.product != head.product
    ensures LinesValid([head] + rest)
  {
    var r := [head] + rest;
    forall i, j | 0 <= i < j < |r| ensures r[i].product != r[j].product {
      assert r[j] == rest[j - 1];
      if i == 0 {
        assert r[j] in rest;
      } else {
        assert r[i] == rest[i - 1];
      }
    }
    forall j | 0 <= j < |r| ensures r[j].qty >= 1 {
      if j > 0 {
        assert r[j] == rest[j - 1];
      }
    }
  }

  /** Filtering keeps the lines valid. */
  lemma {:induction false} WithoutProductKeepsLinesValid(items: seq<CartItem>, pid: ProductId)
    requires LinesValid(items)
    ensures LinesValid(WithoutProduct(items, pid))
    decreases |items|
  {
    if items != [] {
      var tail := items[1..];
      assert LinesValid(tail) by {
        forall i, j | 0 <= i < j < |tail| ensures tail[i].product != tail[j].product {
          assert tail[i] == items[i + 1] && tail[j] == items[j + 1];
        }
      }
      WithoutProductKeepsLinesValid(tail, pid);
      var rest := WithoutProduct(tail, pid);
      if items[0].product != pid {
        forall x | x in rest ensures x.product != items[0].product {
          var j :| 0 <= j < |tail| && tail[j] == x;
          assert items[j + 1] == x;
        }
        ConsKeepsLinesValid(items[0], rest);
      }
    }
  }

  /** Filtering is order-preserving: it distributes over concatenation, so
      the remaining lines keep their relative order. */
  lemma {:induction false} WithoutProductDistributes(a: seq<CartItem>, b: seq<CartItem>, pid: ProductId)
    ensures WithoutProduct(a + b, pid) == WithoutProduct(a, pid) + WithoutProduct(b, pid)
    decreases |a|
  {
    if a == [] {
      assert a + b == b;
    } else {
      assert (a + b)[0] == a[0];
      assert (a + b)[1..] == a[1..] + b;
      WithoutProductDistributes(a[1..], b, pid);
    }
  }

  /** The add handler's checks, in order: a truthy productId and a defined
      qty of at least 1 (400), an existing product (404), enough stock (400,
      naming the available count). None when the request passes them all. */
  function AddFailure(products: map<ProductId, Product>, productId: Option<ProductId>, qty: Option<int>): (f: Option<Message>)
    ensures f == Some(InvalidCartRequest) <==> !Truthy(productId) || qty.None? || qty.value < 1
    ensures f == Some(CartProductNotFound) <==>
              Truthy(productId) && qty.Some? && qty.value >= 1 && productId.value !in products
    ensures f.None? <==>
              Truthy(productId) && qty.Some? && qty.value >= 1 && productId.value in products &&
              products[productId.value].countInStock >= qty.value
    ensures Truthy(productId) && qty.Some? && qty.value >= 1 && productId.value in products &&
            products[productId.value].countInStock < qty.value ==>
              f == Some(InsufficientStock(products[productId.value].name, products[productId.value].countInStock))
  {
    if !Truthy(productId) || qty.None? || qty.value < 1 then Some(InvalidCartRequest)
    else if productId.value !in products then Some(CartProductNotFound)
    else if products[productId.value].countInStock < qty.value then
      Some(InsufficientStock(products[productId.value].name, products[productId.value].countInStock))
    else None
  }

  class CartStore {
    var carts: CartTable

    constructor ()
      ensures carts == map[]
      ensures Valid()
    {
      carts := map[];
    }

    /** One cart per user, and every cart's lines are valid. */
    ghost predicate Valid()
      reads this
    {
      OneCartPerUser(carts) && forall u :: u in carts ==> LinesValid(carts[u].cartItems)
    }

    /** GET /: the caller's cart, or an empty cart when there is none. */
    function Get(user: UserId): (cart: Cart)
      reads this
      ensures user !in carts ==> cart == Cart(user, [])
      ensures user in carts ==> cart == carts[user]
      ensures Valid() ==> cart.user == user
    {
      if user in carts then carts[user] else Cart(user, [])
    }

    /** POST /: validate, then set the quantity of the product's line or
      append a snapshot line, creating the cart first if needed, and save. */
    method AddOrUpdate(catalog: ProductRoutes.Catalog, user: UserId, productId: Option<ProductId>, qty: Option<int>)
      returns (reply: Reply<Cart>)
      modifies this
      ensures AddFailure(catalog.products, productId, qty).Some? ==>
                reply == Failure(AddFailure(catalog.products, productId, qty).value) && carts == old(carts)
      ensures AddFailure(catalog.products, productId, qty).None? ==>
                var before := old(Get(user));
                var after := before.(cartItems :=
                  Upserted(before.cartItems, productId.value, catalog.products[productId.value], qty.value));
                reply == Success(OK, after) && carts == old(carts)[user := after]
      ensures old(Valid()) ==> Valid()
    {
      if !Truthy(productId) || qty.None? || qty.value < 1 {
        return Failure(InvalidCartRequest);
      }
      var pid := productId.value;
      if pid !in catalog.products {
        return Failure(CartProductNotFound);
      }
      var product := catalog.products[pid];
      if product.countInStock < qty.value {
        return Failure(InsufficientStock(product.name, product.countInStock));
      }
      var cart := if user in carts then carts[user] else Cart(user, []);
      var k := FindIndex(cart.cartItems, pid);
      if k > -1 {
        cart := cart.(cartItems := cart.cartItems[k := cart.cartItems[k].(qty := qty.value)]);
      } else {
        cart := cart.(cartItems := cart.cartItems + [SnapshotLine(pid, product, qty.value)]);
      }
      carts := carts[user := cart];
      reply := Success(OK, cart);
    }

    /** DELETE /:productId: 404 without a cart; otherwise drop every line for
      the product, and 404 without saving when none was dropped. */
    method Remove(user: UserId, pid: ProductId) returns (reply: Reply<Cart>)
      modifies this
      ensures user !in old(carts) ==> reply == Failure(CartNotFound) && carts == old(carts)
      ensures user in old(carts) && !HasProduct(old(carts)[user].cartItems, pid) ==>
                reply == Failure(NotInCart) && carts == old(carts)
      ensures user in old(carts) && HasProduct(old(carts)[user].cartItems, pid) ==>
                var after := old(carts)[user].(cartItems := WithoutProduct(old(carts)[user].cartItems, pid));
                reply == Success(OK, after) && carts == old(carts)[user := after]
      ensures old(Valid()) ==> Valid()
    {
      if user !in carts {
        return Failure(CartNotFound);
      }
      var cart := carts[user];
      var initialLength := |cart.cartItems|;
      WithoutProductLength(cart.cartItems, pid);
      if LinesValid(cart.cartItems) {
        WithoutProductKeepsLinesValid(cart.cartItems, pid);
      }
      cart := cart.(cartItems := WithoutProduct(cart.cartItems, pid));
      if |cart.cartItems| == initialLength {
        return Failure(NotInCart);
      }
      carts := carts[user := cart];
      reply := Success(OK, cart);
    }

    /** `Cart.deleteOne({ user })`: drops the whole cart document; deleting
      an absent cart is not an error. */
    method DeleteCart(user: UserId)
      modifies this
      ensures carts == old(carts) - {user}
      ensures Get(user) == Cart(user, [])
      ensures old(Valid()) ==> Valid()
    {
      carts := carts - {user};
    }
  }
}
