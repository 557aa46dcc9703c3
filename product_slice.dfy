/** frontend/src/features/products/productSlice.js: the product list and
    the reducer cases of fetchProducts, a thunk that needs no token
    (`Thunks.Settle` over the server's reply). */
module ProductSlice {
  import opened Common
  import opened ProductModel

  class ProductListState {
    var products: seq<Product>
    var loading: bool
    var error: Option<string>

    constructor ()
      ensures products == [] && !loading && error.None?
    {
      products, loading, error := [], false, None;
    }

    /** `clearProductError`: only the error changes. */
    method ClearProductError()
      modifies this
      ensures error.None?
      ensures products == old(products) && loading == old(loading)
    {
      error := None;
    }

    /** fetchProducts.pending: loading and no error; the list stays. */
    method FetchPending()
      modifies this
      ensures loading && error.None?
      ensures products == old(products)
    {
      loading := true;
      error := None;
    }

    /** fetchProducts.fulfilled: the fetched list; the error is not touched. */
    method FetchFulfilled(fetched: seq<Product>)
      modifies this
      ensures !loading && products == fetched
      ensures error == old(error)
    {
      loading := false;
      products := fetched;
    }

    /** fetchProducts.rejected: the error recorded and the list emptied. */
    method FetchRejected(err: string)
      modifies this
      ensures !loading && error == Some(err) && products == []
    {
      loading := false;
      error := Some(err);
      products := [];
    }
  }
}
