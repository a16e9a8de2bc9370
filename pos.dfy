/** The point-of-sale screen: the stock guards on adding to the cart and on changing a
    line's quantity, the profit shown for the cart, the sale record built at checkout,
    and the checkout sequence (record the sale, publish the profit, write back the stock
    line by line, then clear the cart).

    The cart store's own reducers are not part of this model: the screen reads the cart as
    a value and records the cart actions it dispatches, in order, in `cartDispatches`. */
module Pos {
  import opened Common
  import opened Types
  import SalesSlice
  import opened InventorySlice

  const NotEnoughStock := "Not enough stock available"
  const OutOfStock := "Product out of stock"
  const CartEmpty := "Cart is empty"

  /** The cart actions the screen dispatches. */
  datatype CartAction = AddToCart(product: Product) | UpdateQuantity(id: int, quantity: int) | ClearCart

  /** What a handler does: dispatch one cart action, show an error toast, or nothing. */
  datatype Reaction = Dispatch(action: CartAction) | Toast(message: string) | Nothing

  /** `inventory.find((p) => p.id === id)` */
  function FindProduct(inventory: seq<Product>, id: int): (r: Option<Product>)
    ensures r.None? <==> forall j :: 0 <= j < |inventory| ==> inventory[j].id != id
    ensures r.Some? ==> exists k :: IsFirstMatch(inventory, (p: Product) => p.id == id, k) && r.value == inventory[k]
  {
    match FirstIndex(inventory, (p: Product) => p.id == id)
    case None => None
    case Some(k) => Some(inventory[k])
  }

  // ---------------------------------------------------------------------------
  // Cart guards

  /** `handleAddToCart`: refused when the product's cart line already holds the whole stock
      (checked first), or when the product has no stock; otherwise one `addToCart`. */
  function AddToCartReaction(cart: Cart, product: Product): (r: Reaction)
    ensures r != Nothing
    ensures r == Dispatch(AddToCart(product)) <==>
      product.quantity != 0 &&
      forall k :: IsFirstMatch(cart.items, (l: CartLine) => l.id == product.id, k) ==>
        cart.items[k].cartQuantity < product.quantity
    ensures r == Toast(NotEnoughStock) <==>
      exists k :: IsFirstMatch(cart.items, (l: CartLine) => l.id == product.id, k) &&
        cart.items[k].cartQuantity >= product.quantity
    ensures r.Toast? && r != Toast(NotEnoughStock) ==> r == Toast(OutOfStock) && product.quantity == 0
  {
    match FirstIndex(cart.items, (l: CartLine) => l.id == product.id)
    case Some(k) =>
      if cart.items[k].cartQuantity >= product.quantity then Toast(NotEnoughStock)
      else if product.quantity == 0 then Toast(OutOfStock)
      else Dispatch(AddToCart(product))
    case None =>
      if product.quantity == 0 then Toast(OutOfStock)
      else Dispatch(AddToCart(product))
  }

  /** `handleQuantityChange`: nothing happens for an id that is not in the inventory; the
      change is dispatched when the new quantity is between 1 and the stock, and refused
      with a toast otherwise. */
  function QuantityChangeReaction(inventory: seq<Product>, id: int, newQuantity: int): (r: Reaction)
    ensures r.Nothing? <==> FindProduct(inventory, id).None?
    ensures r.Dispatch? <==>
      FindProduct(inventory, id).Some? && 1 <= newQuantity <= FindProduct(inventory, id).value.quantity
    ensures r.Dispatch? ==> r.action == UpdateQuantity(id, newQuantity)
    ensures r.Toast? ==> r.message == NotEnoughStock
  {
    match FindProduct(inventory, id)
    case None => Nothing
    case Some(product) =>
      if newQuantity <= product.quantity && newQuantity >= 1 then Dispatch(UpdateQuantity(id, newQuantity))
      else Toast(NotEnoughStock)
  }

  /** The minus button on a line holding one unit asks for quantity 0, which is never dispatched. */
  lemma DecrementFromOneRefused(inventory: seq<Product>, id: int)
    ensures !QuantityChangeReaction(inventory, id, 0).Dispatch?
  {
  }

  // ---------------------------------------------------------------------------
  // Profit shown for the cart

  /** What one cart line adds to the profit: its margin over the inventory cost times its
      quantity, or nothing when the product is not in the inventory. */
  function LineProfit(line: CartLine, inventory: seq<Product>): int {
    match FindProduct(inventory, line.id)
    case None => 0
    case Some(p) => (line.price - p.cost) * line.cartQuantity
  }

  /** The profit of the cart's lines, summed in cart order. */
  function CartProfit(lines: seq<CartLine>, inventory: seq<Product>): int {
    Sum(lines, (line: CartLine) => LineProfit(line, inventory))
  }

  /** `calculateProfit`: the `forEach` loop that accumulates `totalProfit`. */
  method CalculateProfit(lines: seq<CartLine>, inventory: seq<Product>) returns (totalProfit: int)
    ensures totalProfit == CartProfit(lines, inventory)
  {
    totalProfit := 0;
    var i := 0;
    while i < |lines|
      invariant 0 <= i <= |lines|
      invariant totalProfit == Sum(lines[..i], (line: CartLine) => LineProfit(line, inventory))
    {
      var line := lines[i];
      var product := FindProduct(inventory, line.id);
      if product.Some? {
        var costPrice := product.value.cost;
        var salePrice := line.price;
        var profit := (salePrice - costPrice) * line.cartQuantity;
        totalProfit := totalProfit + profit;
      }
      SumStep(lines, i, (line: CartLine) => LineProfit(line, inventory));
      i := i + 1;
    }
    assert lines[..i] == lines;
  }

  /** Lines whose product is not in the inventory add nothing: the profit is the same over
      the lines that are found. */
  lemma UnknownLinesEarnNothing(lines: seq<CartLine>, inventory: seq<Product>)
    ensures CartProfit(lines, inventory) ==
      CartProfit(Filter(lines, (l: CartLine) => FindProduct(inventory, l.id).Some?), inventory)
  {
    SumOfFilter(lines, (line: CartLine) => LineProfit(line, inventory),
                (l: CartLine) => FindProduct(inventory, l.id).Some?);
  }

  // ---------------------------------------------------------------------------
  // The sale record

  /** The sale item sent for one cart line. */
  function SaleItemOf(line: CartLine): SaleItem {
    SaleItem(line.id, line.id, line.name, Some(line.price), Some(line.price), line.costPrice,
             Some(line.cartQuantity), 1)
  }

  /** `saleData`: one item per cart line in cart order, the cashier or 1 when nobody is
      signed in, the chosen payment method, the current time and the cart's total. */
  function BuildSale(cart: Cart, currentUser: Option<User>, paymentMethod: string, now: int): (r: Sale)
    ensures r.items.Some? && |r.items.value| == |cart.items|
    ensures forall k :: 0 <= k < |cart.items| ==>
      var item := r.items.value[k];
      var line := cart.items[k];
      item.product_id == item.id == line.id && item.quantity == Some(line.cartQuantity)
      && item.price == item.product_price == Some(line.price) && item.product_cost == line.costPrice
      && item.product_name == line.name && item.sale_id == 1
    ensures r.id.None?
    ensures r.cashier_id == (if currentUser.Some? then currentUser.value.id else 1)
    ensures r.total == Some(cart.total) && r.payment_method == paymentMethod && r.timestamp == now
  {
    Sale(None, if currentUser.Some? then currentUser.value.id else 1, Some(Map(cart.items, SaleItemOf)),
         paymentMethod, now, Some(cart.total))
  }

  /** The line's cost in the cart agrees with the inventory, and price, cost and quantity
      are all non-zero. */
  predicate CostsAgree(line: CartLine, inventory: seq<Product>) {
    && FindProduct(inventory, line.id).Some?
    && line.costPrice == Some(FindProduct(inventory, line.id).value.cost)
    && line.price != 0 && line.costPrice.value != 0 && line.cartQuantity != 0
  }

  /** For a line whose costs agree, the sales store's item profit equals the screen's. */
  lemma ItemProfitMatchesLine(line: CartLine, inventory: seq<Product>)
    requires CostsAgree(line, inventory)
    ensures SalesSlice.ItemProfit(SaleItemOf(line)) == LineProfit(line, inventory)
  {
    var p := FindProduct(inventory, line.id).value;
    assert FindProduct(inventory, line.id) == Some(p);
    assert LineProfit(line, inventory) == (line.price - p.cost) * line.cartQuantity;
    var item := SaleItemOf(line);
    assert item.price == Some(line.price) && item.product_cost == Some(p.cost);
    assert item.quantity == Some(line.cartQuantity);
    assert SalesSlice.CountedItem(item);
    assert SalesSlice.ItemProfit(item) == (line.price - p.cost) * line.cartQuantity;
  }

  /** When every line's cart cost agrees with the inventory, the profit the sales store
      computes for the recorded sale equals the profit shown on the screen. */
  lemma RecordedProfitMatchesScreen(cart: Cart, currentUser: Option<User>, paymentMethod: string,
                                    now: int, inventory: seq<Product>)
    requires forall k :: 0 <= k < |cart.items| ==> CostsAgree(cart.items[k], inventory)
    ensures SalesSlice.SaleProfit(BuildSale(cart, currentUser, paymentMethod, now)) ==
      CartProfit(cart.items, inventory)
  {
    var items := Map(cart.items, SaleItemOf);
    assert BuildSale(cart, currentUser, paymentMethod, now).items == Some(items);
    var f := (line: CartLine) => LineProfit(line, inventory);
    if |cart.items| > 0 {
      forall k | 0 <= k < |cart.items|
        ensures f(cart.items[k]) == SalesSlice.ItemProfit(SaleItemOf(cart.items[k]))
      {
        ItemProfitMatchesLine(cart.items[k], inventory);
      }
      SumMap(cart.items, SaleItemOf, SalesSlice.ItemProfit, f);
    }
  }

  // ---------------------------------------------------------------------------
  // The stock write-back after a recorded sale

  /** What the checkout's `try` block can throw: a thunk's rejection payload, or the
      `TypeError` of calling `unwrap()` on the plain action `removeProductFromInventory`
      returns. */
  datatype Thrown = Rejection(payload: string) | UnwrapNotAFunction

  /** The stock the checkout asks for: the snapshot's quantity minus the line's quantity,
      or NaN when the product is not in the snapshot. */
  function NewQuantity(snapshot: seq<Product>, line: CartLine): (r: JsNumber)
    ensures r.NaN? <==> FindProduct(snapshot, line.id).None?
    ensures r.Finite? ==> r.n == FindProduct(snapshot, line.id).value.quantity - line.cartQuantity
  {
    match FindProduct(snapshot, line.id)
    case None => NaN
    case Some(p) => Finite(p.quantity - line.cartQuantity)
  }

  /** The inventory store's list and error during the write-back, and what has been thrown. */
  datatype SyncState = SyncState(products: seq<Product>, error: Option<string>, thrown: Option<Thrown>)

  /** One turn of the loop for `line`, from a state where nothing has been thrown. */
  function LineStep(st: SyncState, snapshot: seq<Product>, line: CartLine,
                    backend: (int, int) -> Result<Product>): SyncState
  {
    var q := NewQuantity(snapshot, line);
    match StockUpdateGuard(line.id, q)
    case Err(e) => SyncState(st.products, Some(e), Some(Rejection(e)))
    case Ok(n) =>
      match backend(line.id, n)
      case Err(e) => SyncState(st.products, Some(Or(e, StockFailed)), Some(Rejection(Or(e, StockFailed))))
      case Ok(reply) =>
        var products := SetStock(st.products, reply.id, reply.quantity);
        if n <= 0 then SyncState(WithoutId(products, line.id), None, Some(UnwrapNotAFunction))
        else SyncState(products, None, None)
  }

  /** The loop run over `lines` in order, stopping at the first throw. */
  function SyncRun(start: SyncState, snapshot: seq<Product>, lines: seq<CartLine>,
                   backend: (int, int) -> Result<Product>): SyncState
  {
    if |lines| == 0 then start
    else
      var prev := SyncRun(start, snapshot, lines[..|lines| - 1], backend);
      if prev.thrown.Some? then prev else LineStep(prev, snapshot, lines[|lines| - 1], backend)
  }

  /** A line goes through without throwing: the guard passes, the backend stores the new
      quantity, and that quantity is still positive. */
  predicate LineAccepted(snapshot: seq<Product>, line: CartLine, backend: (int, int) -> Result<Product>) {
    var q := NewQuantity(snapshot, line);
    && StockUpdateGuard(line.id, q).Ok?
    && backend(line.id, q.n).Ok?
    && q.n > 0
  }

  lemma LineStepThrowsIff(st: SyncState, snapshot: seq<Product>, line: CartLine,
                          backend: (int, int) -> Result<Product>)
    ensures LineStep(st, snapshot, line, backend).thrown.None? <==> LineAccepted(snapshot, line, backend)
  {
  }

  /** Once something is thrown, the remaining lines change nothing. */
  lemma {:induction false} SyncStopsAtThrow(start: SyncState, snapshot: seq<Product>, lines: seq<CartLine>,
                                            n: nat, backend: (int, int) -> Result<Product>)
    requires n <= |lines|
    requires SyncRun(start, snapshot, lines[..n], backend).thrown.Some?
    ensures SyncRun(start, snapshot, lines, backend) == SyncRun(start, snapshot, lines[..n], backend)
    decreases |lines| - n
  {
    if n < |lines| {
      assert lines[..|lines| - 1][..n] == lines[..n];
      SyncStopsAtThrow(start, snapshot, lines[..|lines| - 1], n, backend);
    } else {
      assert lines[..n] == lines;
    }
  }

  /** Every line of the cart is accepted. */
  predicate AllAccepted(snapshot: seq<Product>, lines: seq<CartLine>, backend: (int, int) -> Result<Product>) {
    forall k :: 0 <= k < |lines| ==> LineAccepted(snapshot, lines[k], backend)
  }

  /** Every line is accepted exactly when every line but the last is, and the last is. */
  lemma AllAcceptedSnoc(snapshot: seq<Product>, lines: seq<CartLine>, backend: (int, int) -> Result<Product>)
    requires |lines| > 0
    ensures AllAccepted(snapshot, lines, backend) <==>
      AllAccepted(snapshot, lines[..|lines| - 1], backend) && LineAccepted(snapshot, lines[|lines| - 1], backend)
  {
    var init := lines[..|lines| - 1];
    var last := lines[|lines| - 1];
    if AllAccepted(snapshot, lines, backend) {
      forall k | 0 <= k < |init|
        ensures LineAccepted(snapshot, init[k], backend)
      {
        assert init[k] == lines[k];
      }
      assert LineAccepted(snapshot, lines[|lines| - 1], backend);
    }
    if AllAccepted(snapshot, init, backend) && LineAccepted(snapshot, last, backend) {
      forall k | 0 <= k < |lines|
        ensures LineAccepted(snapshot, lines[k], backend)
      {
        if k < |init| {
          assert lines[k] == init[k];
        }
      }
    }
  }

  /** Starting from a state where nothing was thrown, the write-back finishes without a throw
      exactly when every line is accepted. */
  lemma {:induction false} SyncCompletesIff(start: SyncState, snapshot: seq<Product>, lines: seq<CartLine>,
                                            backend: (int, int) -> Result<Product>)
    requires start.thrown.None?
    ensures SyncRun(start, snapshot, lines, backend).thrown.None? <==> AllAccepted(snapshot, lines, backend)
  {
    if |lines| > 0 {
      var init := lines[..|lines| - 1];
      SyncCompletesIff(start, snapshot, init, backend);
      AllAcceptedSnoc(snapshot, lines, backend);
      var prev := SyncRun(start, snapshot, init, backend);
      if prev.thrown.None? {
        LineStepThrowsIff(prev, snapshot, lines[|lines| - 1], backend);
      }
    }
  }

  /** Selling the last unit of a product never completes a checkout: the new stock of 0
      is refused by the stock guard (and a negative one ends in a `TypeError`). */
  lemma SellingLastUnitThrows(start: SyncState, snapshot: seq<Product>, lines: seq<CartLine>,
                              backend: (int, int) -> Result<Product>, k: nat)
    requires start.thrown.None? && k < |lines|
    requires FindProduct(snapshot, lines[k].id).Some?
    requires FindProduct(snapshot, lines[k].id).value.quantity == lines[k].cartQuantity
    ensures SyncRun(start, snapshot, lines, backend).thrown.Some?
  {
    SyncCompletesIff(start, snapshot, lines, backend);
    assert !LineAccepted(snapshot, lines[k], backend);
  }

  /** The step as evidently intended: a new stock of 0 is a valid update, and a product
      whose stock runs out is removed from the list without throwing. */
  function IntendedLineStep(st: SyncState, snapshot: seq<Product>, line: CartLine,
                            backend: (int, int) -> Result<Product>): (r: SyncState)
    ensures var q := NewQuantity(snapshot, line);
      q.Finite? && q.n <= 0 && line.id != 0 && backend(line.id, q.n).Ok? ==>
        r.thrown.None? && forall p :: p in r.products ==> p.id != line.id
    ensures LineAccepted(snapshot, line, backend) ==> r == LineStep(st, snapshot, line, backend)
  {
    var q := NewQuantity(snapshot, line);
    if line.id == 0 || q.NaN? then
      SyncState(st.products, Some(MissingIdOrQuantity), Some(Rejection(MissingIdOrQuantity)))
    else
      match backend(line.id, q.n)
      case Err(e) => SyncState(st.products, Some(Or(e, StockFailed)), Some(Rejection(Or(e, StockFailed))))
      case Ok(reply) =>
        var products := SetStock(st.products, reply.id, reply.quantity);
        if q.n <= 0 then
          WithoutIdRemovesExactly(products, line.id);
          SyncState(WithoutId(products, line.id), None, None)
        else SyncState(products, None, None)
  }

  // ---------------------------------------------------------------------------
  // The screen

  /** The `for...of` loop of the checkout: for each line in cart order, write back the stock
      computed from `snapshot` and, when it is not positive, remove the product and hit the
      `unwrap()` that is not a function. The loop stops at the first throw. */
  method WriteBackStock(inventory: InventoryStore, snapshot: seq<Product>, lines: seq<CartLine>,
                        backend: (int, int) -> Result<Product>)
    returns (thrown: Option<Thrown>)
    modifies inventory
    ensures SyncRun(SyncState(old(inventory.products), old(inventory.error), None), snapshot, lines, backend)
      == SyncState(inventory.products, inventory.error, thrown)
    ensures |lines| > 0 ==> !inventory.loading
    ensures |lines| == 0 ==> inventory.loading == old(inventory.loading)
  {
    ghost var start := SyncState(inventory.products, inventory.error, None);
    thrown := None;
    var i := 0;
    while i < |lines| && thrown.None?
      invariant 0 <= i <= |lines|
      invariant SyncRun(start, snapshot, lines[..i], backend) == SyncState(inventory.products, inventory.error, thrown)
      invariant i > 0 ==> !inventory.loading
      invariant i == 0 ==> inventory.loading == old(inventory.loading)
    {
      var line := lines[i];
      var quantity := NewQuantity(snapshot, line);
      assert lines[..i + 1][..i] == lines[..i];
      var r := inventory.UpdateInventoryStock(line.id, quantity, backend);
      if r.Err? {
        thrown := Some(Rejection(r.error));
      } else if quantity.Finite? && quantity.n <= 0 {
        inventory.RemoveProductFromInventory(line.id);
        thrown := Some(UnwrapNotAFunction);
      }
      i := i + 1;
    }
    if thrown.Some? {
      SyncStopsAtThrow(start, snapshot, lines, i, backend);
    } else {
      assert lines[..i] == lines;
    }
  }

  /** The checkout's steps on the sales store: `recordSale(saleData).unwrap()`, then, when
      the sale was recorded, `setTotalProfit` with the cart's profit over `catalogue`. */
  method RecordAndPublish(sales: SalesSlice.SalesStore, lines: seq<CartLine>, catalogue: seq<Product>,
                          reply: Result<Sale>)
    returns (r: Result<Sale>)
    modifies sales
    ensures r == reply && !sales.loading
    ensures sales.filteredProfit == old(sales.filteredProfit) && sales.selectedDate == old(sales.selectedDate)
    ensures reply.Ok? ==> && sales.sales == old(sales.sales) + [reply.value] && sales.error == old(sales.error)
                          && sales.totalProfit == CartProfit(lines, catalogue)
    ensures reply.Err? ==> && sales.sales == old(sales.sales) && sales.totalProfit == old(sales.totalProfit)
                           && sales.error == Some(if reply.error == "" then SalesSlice.RecordSaleFailed else reply.error)
  {
    r := sales.RecordSale(reply);
    if r.Ok? {
      var totalProfit := CalculateProfit(lines, catalogue);
      sales.SetTotalProfit(totalProfit);
    }
  }

  /** How a checkout ends. */
  datatype CheckoutOutcome = EmptyCart | Failed(thrown: Thrown) | Completed

  class PosScreen {
    var searchTerm: string
    var paymentMethod: string
    var paymentAmount: int
    var transactionComplete: bool
    var cartDispatches: seq<CartAction>

    constructor ()
      ensures searchTerm == "" && paymentMethod == "cash" && paymentAmount == 0
      ensures !transactionComplete && cartDispatches == []
    {
      searchTerm, paymentMethod, paymentAmount := "", "cash", 0;
      transactionComplete, cartDispatches := false, [];
    }

    method HandleAddToCart(cart: Cart, product: Product) returns (toast: Option<string>)
      modifies this
      ensures var r := AddToCartReaction(cart, product);
        && (r.Dispatch? ==> cartDispatches == old(cartDispatches) + [r.action] && toast == None)
        && (r.Toast? ==> cartDispatches == old(cartDispatches) && toast == Some(r.message))
      ensures searchTerm == old(searchTerm) && paymentMethod == old(paymentMethod)
      ensures paymentAmount == old(paymentAmount) && transactionComplete == old(transactionComplete)
    {
      var r := AddToCartReaction(cart, product);
      if r.Dispatch? {
        cartDispatches := cartDispatches + [r.action];
        toast := None;
      } else {
        toast := Some(r.message);
      }
    }

    method HandleQuantityChange(inventory: seq<Product>, id: int, newQuantity: int) returns (toast: Option<string>)
      modifies this
      ensures var r := QuantityChangeReaction(inventory, id, newQuantity);
        && (r.Dispatch? ==> cartDispatches == old(cartDispatches) + [r.action] && toast == None)
        && (r.Toast? ==> cartDispatches == old(cartDispatches) && toast == Some(r.message))
        && (r.Nothing? ==> cartDispatches == old(cartDispatches) && toast == None)
      ensures searchTerm == old(searchTerm) && paymentMethod == old(paymentMethod)
      ensures paymentAmount == old(paymentAmount) && transactionComplete == old(transactionComplete)
    {
      var r := QuantityChangeReaction(inventory, id, newQuantity);
      toast := None;
      if r.Dispatch? {
        cartDispatches := cartDispatches + [r.action];
      } else if r.Toast? {
        toast := Some(r.message);
      }
    }

    /** `handlePaymentMethodChange`: choosing cash fills in the cart's total. */
    method HandlePaymentMethodChange(cart: Cart, choice: string)
      modifies this
      ensures paymentMethod == choice
      ensures paymentAmount == (if choice == "cash" then cart.total else old(paymentAmount))
      ensures searchTerm == old(searchTerm) && transactionComplete == old(transactionComplete)
      ensures cartDispatches == old(cartDispatches)
    {
      paymentMethod := choice;
      if choice == "cash" {
        paymentAmount := cart.total;
      }
    }

    /** `handleNewSale`: the cart is cleared and the screen reset. */
    method HandleNewSale()
      modifies this
      ensures cartDispatches == old(cartDispatches) + [ClearCart]
      ensures searchTerm == "" && paymentAmount == 0 && paymentMethod == "cash" && !transactionComplete
    {
      cartDispatches := cartDispatches + [ClearCart];
      searchTerm := "";
      paymentAmount := 0;
      paymentMethod := "cash";
      transactionComplete := false;
    }

    /** `handleCheckout`. `saleBackend` answers the request that records the sale and
        `stockBackend` each stock write; `now` is the clock. The stock is computed from the
        inventory as it was when the checkout began. */
    method HandleCheckout(cart: Cart, currentUser: Option<User>, now: int,
                          sales: SalesSlice.SalesStore, inventory: InventoryStore,
                          saleBackend: Sale -> Result<Sale>,
                          stockBackend: (int, int) -> Result<Product>)
      returns (outcome: CheckoutOutcome)
      modifies this, sales, inventory
      ensures |cart.items| == 0 ==> outcome == EmptyCart
      ensures |cart.items| == 0 || outcome.Failed? ==>
        && cartDispatches == old(cartDispatches) && searchTerm == old(searchTerm)
        && paymentMethod == old(paymentMethod) && paymentAmount == old(paymentAmount)
        && transactionComplete == old(transactionComplete)
      ensures |cart.items| == 0 ==> sales.sales == old(sales.sales) && inventory.products == old(inventory.products)
      ensures sales.selectedDate == old(sales.selectedDate)
      ensures |cart.items| == 0 ==>
        && sales.totalProfit == old(sales.totalProfit) && sales.filteredProfit == old(sales.filteredProfit)
        && sales.error == old(sales.error) && sales.loading == old(sales.loading)
      ensures |cart.items| == 0 || saleBackend(BuildSale(cart, currentUser, old(paymentMethod), now)).Err? ==>
        inventory.error == old(inventory.error) && inventory.loading == old(inventory.loading)
      ensures |cart.items| > 0 ==>
        var reply := saleBackend(BuildSale(cart, currentUser, old(paymentMethod), now));
        && sales.filteredProfit == old(sales.filteredProfit) && !sales.loading
        && (reply.Err? ==>
              && sales.totalProfit == old(sales.totalProfit)
              && sales.error == Some(if reply.error == "" then SalesSlice.RecordSaleFailed else reply.error))
        && (reply.Ok? ==> sales.error == old(sales.error))
      ensures |cart.items| > 0 ==>
        var reply := saleBackend(BuildSale(cart, currentUser, old(paymentMethod), now));
        && (reply.Err? ==>
              outcome == Failed(Rejection(reply.error)) && sales.sales == old(sales.sales)
              && inventory.products == old(inventory.products))
        && (reply.Ok? ==>
              var fin := SyncRun(SyncState(old(inventory.products), old(inventory.error), None),
                                 old(inventory.products), cart.items, stockBackend);
              && sales.sales == old(sales.sales) + [reply.value]
              && sales.totalProfit == CartProfit(cart.items, old(inventory.products))
              && inventory.products == fin.products && inventory.error == fin.error && !inventory.loading
              && outcome == (if fin.thrown.None? then Completed else Failed(fin.thrown.value)))
      ensures outcome == Completed ==>
        && cartDispatches == old(cartDispatches) + [ClearCart]
        && searchTerm == "" && paymentAmount == 0 && paymentMethod == "cash" && transactionComplete
    {
      if |cart.items| == 0 {
        return EmptyCart;
      }
      var saleData := BuildSale(cart, currentUser, paymentMethod, now);
      var sale := RecordAndPublish(sales, cart.items, inventory.products, saleBackend(saleData));
      if sale.Err? {
        return Failed(Rejection(sale.error));
      }

      outcome := WriteBackAndClear(cart.items, inventory, stockBackend);
    }

    /** The checkout after the sale was recorded: the stock write-back from a snapshot of
        the inventory, then, when nothing was thrown, the cart cleared and the screen reset. */
    method WriteBackAndClear(lines: seq<CartLine>, inventory: InventoryStore,
                             stockBackend: (int, int) -> Result<Product>)
      returns (outcome: CheckoutOutcome)
      requires |lines| > 0
      modifies this, inventory
      ensures var fin := SyncRun(SyncState(old(inventory.products), old(inventory.error), None),
                                 old(inventory.products), lines, stockBackend);
        && inventory.products == fin.products && inventory.error == fin.error && !inventory.loading
        && outcome == (if fin.thrown.None? then Completed else Failed(fin.thrown.value))
      ensures outcome.Failed? ==>
        && cartDispatches == old(cartDispatches) && searchTerm == old(searchTerm)
        && paymentMethod == old(paymentMethod) && paymentAmount == old(paymentAmount)
        && transactionComplete == old(transactionComplete)
      ensures outcome == Completed ==>
        && cartDispatches == old(cartDispatches) + [ClearCart]
        && searchTerm == "" && paymentAmount == 0 && paymentMethod == "cash" && transactionComplete
    {
      var snapshot := inventory.products;
      var thrown := WriteBackStock(inventory, snapshot, lines, stockBackend);
      if thrown.Some? {
        return Failed(thrown.value);
      }
      cartDispatches := cartDispatches + [ClearCart];
      searchTerm := "";
      paymentAmount := 0;
      paymentMethod := "cash";
      transactionComplete := true;
      outcome := Completed;
    }
  }
}
