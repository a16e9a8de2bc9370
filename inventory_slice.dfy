/** The `inventory` slice: the product list, its `loading` and `error` flags, the five
    request thunks reduced to their outcomes, and the guard `updateInventoryStock`
    runs before it sends anything. */
module InventorySlice {
  import opened Common
  import opened Types

  const MissingIdOrQuantity := "Product ID or quantity is missing"
  const FetchFailed := "Failed to fetch products"
  const AddFailed := "Failed to add product"
  const UpdateFailed := "Failed to update product"
  const DeleteFailed := "Failed to delete product"
  const StockFailed := "Failed to update inventory stock"

  // ---------------------------------------------------------------------------
  // The list operations the reducers perform

  /** `products.filter((product) => product.id !== id)` */
  function WithoutId(products: seq<Product>, id: int): seq<Product> {
    Filter(products, (p: Product) => p.id != id)
  }

  /** Replace the first product whose id is `updated.id` by `updated`, if there is one. */
  function ReplaceById(products: seq<Product>, updated: Product): seq<Product> {
    UpdateFirst(products, (p: Product) => p.id == updated.id, (p: Product) => updated)
  }

  /** Set the `quantity` field of the first product whose id is `id`, if there is one. */
  function SetStock(products: seq<Product>, id: int, quantity: int): seq<Product> {
    UpdateFirst(products, (p: Product) => p.id == id, (p: Product) => p.(quantity := quantity))
  }

  /** The ids of a product list, position by position. */
  function Ids(products: seq<Product>): (r: seq<int>)
    ensures |r| == |products| && forall i :: 0 <= i < |r| ==> r[i] == products[i].id
  {
    seq(|products|, i requires 0 <= i < |products| => products[i].id)
  }

  /** Removal by id drops exactly the products with that id, keeps the order of the rest,
      changes nothing when no product has the id, and has no effect when repeated. */
  lemma WithoutIdRemovesExactly(products: seq<Product>, id: int)
    ensures forall p :: p in WithoutId(products, id) <==> p in products && p.id != id
    ensures IsSubsequence(WithoutId(products, id), products)
    ensures WithoutId(WithoutId(products, id), id) == WithoutId(products, id)
    ensures (forall i :: 0 <= i < |products| ==> products[i].id != id) ==> WithoutId(products, id) == products
  {
    var keep := (p: Product) => p.id != id;
    forall p {
      FilterMembership(products, keep, p);
    }
    FilterIsSubsequence(products, keep);
    FilterIdempotent(products, keep);
    if forall i :: 0 <= i < |products| ==> products[i].id != id {
      FilterAll(products, keep);
    }
  }

  /** Replacing by id touches only the first product with that id, which becomes `updated`;
      with no such product the list is unchanged. The ids keep their positions. */
  lemma ReplaceByIdChangesOneRecord(products: seq<Product>, updated: Product)
    ensures var r := ReplaceById(products, updated);
      && |r| == |products|
      && Ids(r) == Ids(products)
      && ((forall i :: 0 <= i < |products| ==> products[i].id != updated.id) ==> r == products)
      && forall k :: IsFirstMatch(products, (p: Product) => p.id == updated.id, k) ==>
           r[k] == updated && forall j :: 0 <= j < |products| && j != k ==> r[j] == products[j]
  {
    var r := ReplaceById(products, updated);
    var m := (p: Product) => p.id == updated.id;
    match FirstIndex(products, m)
    case None =>
    case Some(k) =>
      assert forall j :: 0 <= j < |r| ==> r[j].id == products[j].id;
  }

  /** A stock update changes only the `quantity` field of the first product with the id;
      every other field and every other product stays as it was. */
  lemma SetStockChangesOneField(products: seq<Product>, id: int, quantity: int)
    ensures var r := SetStock(products, id, quantity);
      && |r| == |products|
      && Ids(r) == Ids(products)
      && ((forall i :: 0 <= i < |products| ==> products[i].id != id) ==> r == products)
      && forall k :: IsFirstMatch(products, (p: Product) => p.id == id, k) ==>
           r[k] == products[k].(quantity := quantity) && r[k].quantity == quantity
           && forall j :: 0 <= j < |products| && j != k ==> r[j] == products[j]
  {
    var r := SetStock(products, id, quantity);
    var m := (p: Product) => p.id == id;
    match FirstIndex(products, m)
    case None =>
    case Some(k) =>
      assert forall j :: 0 <= j < |r| ==> r[j].id == products[j].id;
  }

  // ---------------------------------------------------------------------------
  // Requests

  /** `icon || null`: the icon `createProduct` and `updateProductById` send. */
  function IconOrNull(icon: Option<string>): (r: Option<string>)
    ensures r.Some? <==> TruthyString(icon)
    ensures r.Some? ==> r == icon
  {
    if TruthyString(icon) then icon else None
  }

  /** The guard of `updateInventoryStock`: the request goes out only when both the id and
      the new quantity are truthy; the new quantity is then a non-zero integer. */
  function StockUpdateGuard(id: int, quantity: JsNumber): (r: Result<int>)
    ensures r.Ok? <==> id != 0 && quantity.Finite? && quantity.n != 0
    ensures r.Ok? ==> r.value == quantity.n
    ensures r.Err? ==> r.error == MissingIdOrQuantity
  {
    if id == 0 || quantity.NaN? || quantity.n == 0 then Err(MissingIdOrQuantity)
    else Ok(quantity.n)
  }

  /** A stock update to exactly 0 never reaches the backend. */
  lemma StockUpdateToZeroRejected(id: int)
    ensures StockUpdateGuard(id, Finite(0)) == Err(MissingIdOrQuantity)
  {
  }

  // ---------------------------------------------------------------------------
  // The store

  class InventoryStore {
    var products: seq<Product>
    var loading: bool
    var error: Option<string>

    constructor ()
      ensures products == [] && !loading && error == None
    {
      products, loading, error := [], false, None;
    }

    method SetLoading(value: bool)
      modifies this
      ensures loading == value && products == old(products) && error == old(error)
    {
      loading := value;
    }

    method SetError(value: Option<string>)
      modifies this
      ensures error == value && products == old(products) && loading == old(loading)
    {
      error := value;
    }

    method RemoveProductFromInventory(id: int)
      modifies this
      ensures products == WithoutId(old(products), id)
      ensures loading == old(loading) && error == old(error)
    {
      products := WithoutId(products, id);
    }

    /** Every `pending` case of the five thunks. */
    method Pending()
      modifies this
      ensures loading && error == None && products == old(products)
    {
      loading := true;
      error := None;
    }

    /** Every `rejected` case of the five thunks. */
    method Rejected(payload: string)
      modifies this
      ensures !loading && error == Some(payload) && products == old(products)
    {
      loading := false;
      error := Some(payload);
    }

    method FetchProductsFulfilled(payload: seq<Product>)
      modifies this
      ensures products == payload && !loading && error == None
    {
      products := payload;
      loading := false;
      error := None;
    }

    method CreateProductFulfilled(payload: Product)
      modifies this
      ensures products == old(products) + [payload] && !loading && error == None
    {
      products := products + [payload];
      loading := false;
      error := None;
    }

    method UpdateProductByIdFulfilled(payload: Product)
      modifies this
      ensures products == ReplaceById(old(products), payload) && !loading && error == None
    {
      products := ReplaceById(products, payload);
      loading := false;
      error := None;
    }

    method DeleteProductByIdFulfilled(id: int)
      modifies this
      ensures products == WithoutId(old(products), id) && !loading && error == None
    {
      products := WithoutId(products, id);
      loading := false;
      error := None;
    }

    method UpdateInventoryStockFulfilled(payload: Product)
      modifies this
      ensures products == SetStock(old(products), payload.id, payload.quantity)
      ensures !loading && error == None
    {
      products := SetStock(products, payload.id, payload.quantity);
      loading := false;
      error := None;
    }

    /** `fetchProducts`: `reply` is the backend's answer; an empty error body becomes
        the default message. */
    method FetchProducts(reply: Result<seq<Product>>)
      modifies this
      ensures !loading
      ensures reply.Ok? ==> products == reply.value && error == None
      ensures reply.Err? ==> products == old(products) && error == Some(Or(reply.error, FetchFailed))
    {
      Pending();
      if reply.Ok? {
        FetchProductsFulfilled(reply.value);
      } else {
        Rejected(Or(reply.error, FetchFailed));
      }
    }

    /** `createProduct`: the product is sent with a falsy icon replaced by null, and the
        product the backend answers with is appended. */
    method CreateProduct(product: Product, backend: Product -> Result<Product>) returns (sent: Product)
      modifies this
      ensures sent == product.(icon := IconOrNull(product.icon))
      ensures !loading
      ensures backend(sent).Ok? ==> products == old(products) + [backend(sent).value] && error == None
      ensures backend(sent).Err? ==> products == old(products) && error == Some(Or(backend(sent).error, AddFailed))
    {
      Pending();
      sent := product.(icon := IconOrNull(product.icon));
      var reply := backend(sent);
      if reply.Ok? {
        CreateProductFulfilled(reply.value);
      } else {
        Rejected(Or(reply.error, AddFailed));
      }
    }

    /** `updateProductById`: `data` is sent for product `id` with a falsy icon replaced by
        null; the answer replaces the first product with the answer's id. */
    method UpdateProductById(id: int, data: Product, backend: (int, Product) -> Result<Product>)
      returns (sent: Product)
      modifies this
      ensures sent == data.(icon := IconOrNull(data.icon))
      ensures !loading
      ensures backend(id, sent).Ok? ==> products == ReplaceById(old(products), backend(id, sent).value) && error == None
      ensures backend(id, sent).Err? ==> products == old(products) && error == Some(Or(backend(id, sent).error, UpdateFailed))
    {
      Pending();
      sent := data.(icon := IconOrNull(data.icon));
      var reply := backend(id, sent);
      if reply.Ok? {
        UpdateProductByIdFulfilled(reply.value);
      } else {
        Rejected(Or(reply.error, UpdateFailed));
      }
    }

    /** `deleteProductById`: `failure` is the backend's error body, `None` when it succeeded. */
    method DeleteProductById(id: int, failure: Option<string>)
      modifies this
      ensures !loading
      ensures failure.None? ==> products == WithoutId(old(products), id) && error == None
      ensures failure.Some? ==> products == old(products) && error == Some(Or(failure.value, DeleteFailed))
    {
      Pending();
      if failure.None? {
        DeleteProductByIdFulfilled(id);
      } else {
        Rejected(Or(failure.value, DeleteFailed));
      }
    }

    /** `updateInventoryStock` followed by `unwrap()`: the guard runs after `pending`, and
        only when it passes is `backend` asked to store the new quantity. The result is the
        updated product, or the rejection payload `unwrap()` throws. */
    method UpdateInventoryStock(id: int, quantity: JsNumber, backend: (int, int) -> Result<Product>)
      returns (r: Result<Product>)
      modifies this
      ensures !loading
      ensures StockUpdateGuard(id, quantity).Err? ==>
        r == Err(MissingIdOrQuantity) && products == old(products) && error == Some(MissingIdOrQuantity)
      ensures StockUpdateGuard(id, quantity).Ok? && backend(id, quantity.n).Ok? ==>
        var reply := backend(id, quantity.n).value;
        r == Ok(reply) && products == SetStock(old(products), reply.id, reply.quantity) && error == None
      ensures StockUpdateGuard(id, quantity).Ok? && backend(id, quantity.n).Err? ==>
        r == Err(Or(backend(id, quantity.n).error, StockFailed)) && products == old(products) && error == Some(r.error)
    {
      Pending();
      var guard := StockUpdateGuard(id, quantity);
      if guard.Err? {
        Rejected(guard.error);
        r := Err(guard.error);
      } else {
        var reply := backend(id, guard.value);
        if reply.Ok? {
          UpdateInventoryStockFulfilled(reply.value);
          r := reply;
        } else {
          Rejected(Or(reply.error, StockFailed));
          r := Err(Or(reply.error, StockFailed));
        }
      }
    }
  }
}
