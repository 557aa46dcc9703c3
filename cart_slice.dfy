/** frontend/src/features/cart/cartSlice.js: the client's copy of the cart,
    its totals, and the reducer cases of the three cart thunks. Prices are
    whole cents. */
module CartSlice {
  import opened Common
  import opened Thunks

  /** A line's product as the server sends it: populated (an object with an
      `_id`) by GET, a plain id string otherwise. */
  datatype ProductRef = Populated(id: ProductId) | Plain(id: ProductId)

  datatype CartLine = CartLine(product: ProductRef, name: string, image: string, price: int, qty: int)

  datatype Totals = Totals(totalItems: int, totalPrice: int)

  /** `calculateCartTotals`: two left folds from 0, one adding `qty`, one
      adding `qty * price`. */
  function CalculateCartTotals(items: seq<CartLine>): (t: Totals)
    ensures (forall i :: 0 <= i < |items| ==> items[i].qty >= 0) ==>
              t.totalItems >= 0 &&
              (t.totalItems == 0 <==> forall i :: 0 <= i < |items| ==> items[i].qty == 0)
    decreases |items|
  {
    if items == [] then Totals(0, 0)
    else
      var init := items[..|items| - 1];
      assert forall i :: 0 <= i < |init| ==> init[i] == items[i];
      var acc := CalculateCartTotals(init);
      var last := items[|items| - 1];
      Totals(acc.totalItems + last.qty, acc.totalPrice + last.qty * last.price)
  }

  /** The totals of a single line. */
  lemma TotalsOfLine(line: CartLine)
    ensures CalculateCartTotals([line]) == Totals(line.qty, line.qty * line.price)
  {
    assert [line][..0] == [];
  }

  /** The totals of two runs of lines add up. */
  lemma {:induction false} TotalsAppend(a: seq<CartLine>, b: seq<CartLine>)
    ensures CalculateCartTotals(a + b) ==
              Totals(CalculateCartTotals(a).totalItems + CalculateCartTotals(b).totalItems,
                     CalculateCartTotals(a).totalPrice + CalculateCartTotals(b).totalPrice)
    decreases |b|
  {
    if b == [] {
      assert a + b == a;
    } else {
      var init := b[..|b| - 1];
      assert (a + b)[..|a + b| - 1] == a + init;
      TotalsAppend(a, init);
    }
  }

  /** With non-negative quantities and prices, neither total is negative. */
  lemma {:induction false} TotalsNonNegative(items: seq<CartLine>)
    requires forall i :: 0 <= i < |items| ==> items[i].qty >= 0 && items[i].price >= 0
    ensures CalculateCartTotals(items).totalItems >= 0 && CalculateCartTotals(items).totalPrice >= 0
    decreases |items|
  {
    if items != [] {
      TotalsNonNegative(items[..|items| - 1]);
    }
  }

  /** `item.product._id ? item.product._id.toString() : item.product`. */
  function NormalizeLine(line: CartLine): (r: CartLine)
    ensures r.product == Plain(line.product.id)
    ensures r.(product := line.product) == line
  {
    line.(product := Plain(line.product.id))
  }

  /** The fulfilled cases' `map` over the payload's lines. */
  function Normalized(items: seq<CartLine>): (r: seq<CartLine>)
    ensures |r| == |items|
    ensures forall i :: 0 <= i < |items| ==> r[i] == NormalizeLine(items[i])
  {
    seq(|items|, i requires 0 <= i < |items| => NormalizeLine(items[i]))
  }

  /** Every line's product is a plain id. */
  predicate AllPlain(items: seq<CartLine>) {
    forall i :: 0 <= i < |items| ==> items[i].product.Plain?
  }

  /** Normalising leaves only plain ids, and leaves plain lines as they were. */
  lemma NormalizedIsPlain(items: seq<CartLine>)
    ensures AllPlain(Normalized(items))
    ensures AllPlain(items) ==> Normalized(items) == items
  {
  }

  /** Normalising the product references does not change the totals. */
  lemma {:induction false} NormalizedTotals(items: seq<CartLine>)
    ensures CalculateCartTotals(Normalized(items)) == CalculateCartTotals(items)
    decreases |items|
  {
    if items != [] {
      var init := items[..|items| - 1];
      assert Normalized(items)[..|items| - 1] == Normalized(init);
      NormalizedTotals(init);
    }
  }

  /** The three thunks whose cases this slice handles. */
  datatype CartThunk = GetCart | AddToCart | RemoveFromCart

  /** `{ cart: data, ...calculateCartTotals(data.cartItems) }`. */
  datatype CartPayload = CartPayload(cartItems: seq<CartLine>, totals: Totals)

  /** Each cart thunk: refused without a token, otherwise settled by the
      response (for removeFromCart, by a failed DELETE, or else by the GET
      that follows it), the payload's totals being computed from the lines
      the server sent. */
  function CartThunkOutcome(userInfo: Option<UserInfo>, response: Response<seq<CartLine>>): (o: Outcome<CartPayload>)
    ensures !Authenticated(userInfo) ==> o == Rejected(NOT_AUTHENTICATED)
    ensures o.Fulfilled? <==> Authenticated(userInfo) && response.Ok?
    ensures o.Fulfilled? ==>
              o.payload.cartItems == response.data &&
              o.payload.totals == CalculateCartTotals(o.payload.cartItems)
    ensures Authenticated(userInfo) && response.HttpError? ==>
              o == Rejected(RejectValue(response.serverMessage, response.errorMessage))
  {
    match Guarded(userInfo, response)
    case Fulfilled(data) => Fulfilled(CartPayload(data, CalculateCartTotals(data)))
    case Rejected(e) => Rejected(e)
  }

  class CartState {
    var cartItems: seq<CartLine>
    var totalItems: int
    var totalPrice: int
    var loading: bool
    var error: Option<string>

    /** The slice's initial state. */
    predicate IsInitial()
      reads this
    {
      cartItems == [] && totalItems == 0 && totalPrice == 0 && !loading && error.None?
    }

    /** The stored totals are those of the stored lines, and every stored
      line's product is a plain id. */
    ghost predicate Valid()
      reads this
    {
      Totals(totalItems, totalPrice) == CalculateCartTotals(cartItems) && AllPlain(cartItems)
    }

    constructor ()
      ensures IsInitial() && Valid()
    {
      cartItems, totalItems, totalPrice, loading, error := [], 0, 0, false, None;
    }

    /** `clearCart`: back to the initial state. */
    method ClearCart()
      modifies this
      ensures IsInitial() && Valid()
    {
      cartItems := [];
      totalItems := 0;
      totalPrice := 0;
      loading := false;
      error := None;
    }

    /** `clearCartError`: only the error changes. */
    method ClearCartError()
      modifies this
      ensures error.None?
      ensures cartItems == old(cartItems) && totalItems == old(totalItems) && totalPrice == old(totalPrice)
      ensures loading == old(loading)
      ensures old(Valid()) ==> Valid()
    {
      error := None;
    }

    /** Every pending case: loading, no error, lines and totals untouched. */
    method Pending(t: CartThunk)
      modifies this
      ensures loading && error.None?
      ensures cartItems == old(cartItems) && totalItems == old(totalItems) && totalPrice == old(totalPrice)
      ensures old(Valid()) ==> Valid()
    {
      loading := true;
      error := None;
    }

    /** Every fulfilled case: the payload's lines with their products
      normalised to ids, and the payload's totals; the error is not touched. */
    method Fulfilled(t: CartThunk, payload: CartPayload)
      modifies this
      ensures !loading && error == old(error)
      ensures cartItems == Normalized(payload.cartItems)
      ensures totalItems == payload.totals.totalItems && totalPrice == payload.totals.totalPrice
      ensures payload.totals == CalculateCartTotals(payload.cartItems) ==> Valid()
    {
      loading := false;
      cartItems := Normalized(payload.cartItems);
      totalItems := payload.totals.totalItems;
      totalPrice := payload.totals.totalPrice;
      NormalizedTotals(payload.cartItems);
      NormalizedIsPlain(payload.cartItems);
    }

    /** The rejected cases: getCart empties the lines and zeroes the totals;
      addToCart and removeFromCart keep them. All record the error. */
    method Rejected(t: CartThunk, err: string)
      modifies this
      ensures !loading && error == Some(err)
      ensures t == GetCart ==> cartItems == [] && totalItems == 0 && totalPrice == 0
      ensures t != GetCart ==>
                cartItems == old(cartItems) && totalItems == old(totalItems) && totalPrice == old(totalPrice)
      ensures old(Valid()) ==> Valid()
    {
      loading := false;
      error := Some(err);
      if t == GetCart {
        cartItems := [];
        totalItems := 0;
        totalPrice := 0;
      }
    }
  }
}
