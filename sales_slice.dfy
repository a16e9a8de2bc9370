/** The sales store: profit arithmetic, the today / this-week / this-month selectors,
    the session guard of `fetchSales`, and the reducers of the `sales` slice. */
module SalesSlice {
  import opened Common
  import opened Types

  // ---------------------------------------------------------------------------
  // Profit

  /** An item whose price, cost and quantity are all truthy; any other item is skipped. */
  predicate CountedItem(item: SaleItem) {
    Truthy(item.price) && Truthy(item.product_cost) && Truthy(item.quantity)
  }

  /** What one item adds to its sale's profit in `calculateProfitForSale`. */
  function ItemProfit(item: SaleItem): int {
    if CountedItem(item)
    then (item.price.value - item.product_cost.value) * item.quantity.value
    else 0
  }

  /** `calculateProfitForSale`: a sale without items, or with an empty list, earns 0. */
  function SaleProfit(sale: Sale): int {
    if sale.items.None? || |sale.items.value| == 0 then 0
    else Sum(sale.items.value, ItemProfit)
  }

  /** `calculateTotalProfit`, before `toFixed(2)` turns it into a string. */
  function TotalProfit(sales: seq<Sale>): int {
    Sum(sales, SaleProfit)
  }

  /** Items with a falsy price, cost or quantity can be removed without changing the profit:
      the profit is the sum of (price - cost) * quantity over the counted items only. */
  lemma SkippedItemsEarnNothing(sale: Sale)
    requires sale.items.Some?
    ensures SaleProfit(sale) == Sum(Filter(sale.items.value, CountedItem), ItemProfit)
    ensures forall item :: item in Filter(sale.items.value, CountedItem) ==>
      ItemProfit(item) == (item.price.value - item.product_cost.value) * item.quantity.value
  {
    var items := sale.items.value;
    SumOfFilter(items, ItemProfit, CountedItem);
    assert |items| == 0 ==> Filter(items, CountedItem) == [];
  }

  /** Total profit is additive: the profit of two lists of sales is the sum of their profits. */
  lemma TotalProfitAppend(a: seq<Sale>, b: seq<Sale>)
    ensures TotalProfit(a + b) == TotalProfit(a) + TotalProfit(b)
  {
    SumAppend(a, b, SaleProfit);
  }

  /** An item that cost nothing to stock but sold for 100 (twice) adds 0 rather than 200,
      because a cost of 0 is falsy. */
  lemma ZeroCostItemEarnsNothing()
    ensures var item := SaleItem(1, 1, "sample", Some(100), Some(100), Some(0), Some(2), 1);
      ItemProfit(item) == 0 && IntendedItemProfit(item) == 200
  {
  }

  /** Item profit as the guard evidently means it: skip an item only when a field is absent. */
  function IntendedItemProfit(item: SaleItem): (r: int)
    ensures item.price.Some? && item.product_cost.Some? && item.quantity.Some? ==>
      r == (item.price.value - item.product_cost.value) * item.quantity.value
    ensures item.price.None? || item.product_cost.None? || item.quantity.None? ==> r == 0
  {
    match (item.price, item.product_cost, item.quantity)
    case (Some(p), Some(c), Some(q)) => (p - c) * q
    case _ => 0
  }

  /** The intended profit differs from the guarded one only on items that have a zero field. */
  lemma IntendedAgreesOnTruthyItems(item: SaleItem)
    ensures IntendedItemProfit(item) != ItemProfit(item) ==>
      item.price == Some(0) || item.product_cost == Some(0) || item.quantity == Some(0)
  {
  }

  // ---------------------------------------------------------------------------
  // Time windows

  /** The local calendar as the selectors see it through `Date`. Days are numbered
      consecutively; `weekday` is `getDay()` (0 = Sunday), `monthDay` is `getDate()`,
      `monthLength` the number of days in the day's month; `startOfDay` and `endOfDay`
      give the instants of 00:00:00.000 and 23:59:59.999 local on a day. */
  datatype Calendar = Calendar(
    dayOf: int -> int,
    startOfDay: int -> int,
    endOfDay: int -> int,
    weekday: int -> int,
    monthDay: int -> int,
    monthLength: int -> int)

  /** Days follow one another: each day ends after it starts and before the next starts. */
  ghost predicate Ordered(cal: Calendar) {
    forall d :: cal.startOfDay(d) <= cal.endOfDay(d) < cal.startOfDay(d + 1)
  }

  /** `now` lies in the day the calendar assigns to it, and that day's fields are in range. */
  ghost predicate Placed(cal: Calendar, now: int) {
    var d := cal.dayOf(now);
    && cal.startOfDay(d) <= now <= cal.endOfDay(d)
    && 0 <= cal.weekday(d) <= 6
    && 1 <= cal.monthDay(d) <= cal.monthLength(d)
  }

  /** An inclusive range of instants. */
  datatype Window = Window(from: int, to: int) {
    predicate Contains(t: int) {
      from <= t && t <= to
    }
  }

  /** `selectSalesForToday`: midnight to 23:59:59.999 of the local day of `now`. */
  function TodayWindow(cal: Calendar, now: int): Window {
    var d := cal.dayOf(now);
    Window(cal.startOfDay(d), cal.endOfDay(d))
  }

  /** `selectSalesForThisWeek` as written: `today` is first moved back to Sunday, and
      `6 - dayOfWeek` days are then added to that Sunday, not to the original day. */
  function WeekWindow(cal: Calendar, now: int): Window {
    var d := cal.dayOf(now);
    var dayOfWeek := cal.weekday(d);
    var sunday := d - dayOfWeek;
    Window(cal.startOfDay(sunday), cal.endOfDay(sunday + (6 - dayOfWeek)))
  }

  /** `selectSalesForThisMonth`: the 1st at midnight to the last day at 23:59:59.999. */
  function MonthWindow(cal: Calendar, now: int): Window {
    var d := cal.dayOf(now);
    var first := d - (cal.monthDay(d) - 1);
    Window(cal.startOfDay(first), cal.endOfDay(first + cal.monthLength(d) - 1))
  }

  /** The sales whose timestamp lies in `w`, in their stored order. */
  function SalesIn(sales: seq<Sale>, w: Window): seq<Sale> {
    Filter(sales, (s: Sale) => w.Contains(s.timestamp))
  }

  function SalesForToday(sales: seq<Sale>, cal: Calendar, now: int): seq<Sale> {
    SalesIn(sales, TodayWindow(cal, now))
  }

  function SalesForThisWeek(sales: seq<Sale>, cal: Calendar, now: int): seq<Sale> {
    SalesIn(sales, WeekWindow(cal, now))
  }

  function SalesForThisMonth(sales: seq<Sale>, cal: Calendar, now: int): seq<Sale> {
    SalesIn(sales, MonthWindow(cal, now))
  }

  /** A window selector keeps exactly the sales inside the window, both ends included,
      and keeps them in their stored order. */
  lemma WindowSelection(sales: seq<Sale>, w: Window)
    ensures forall s :: s in SalesIn(sales, w) <==> s in sales && w.from <= s.timestamp <= w.to
    ensures IsSubsequence(SalesIn(sales, w), sales)
  {
    forall s {
      FilterMembership(sales, (x: Sale) => w.Contains(x.timestamp), s);
    }
    FilterIsSubsequence(sales, (x: Sale) => w.Contains(x.timestamp));
  }

  /** Every day ends before any later day starts. */
  lemma {:induction false} DaysInOrder(cal: Calendar, a: int, b: int)
    requires Ordered(cal) && a < b
    ensures cal.endOfDay(a) < cal.startOfDay(b)
    ensures cal.startOfDay(a) < cal.startOfDay(b) && cal.endOfDay(a) < cal.endOfDay(b)
    decreases b - a
  {
    if a + 1 < b {
      DaysInOrder(cal, a + 1, b);
    }
    assert cal.startOfDay(a) <= cal.endOfDay(a) < cal.startOfDay(a + 1);
    assert cal.startOfDay(b) <= cal.endOfDay(b);
  }

  /** Later days start and end later. */
  lemma DaysMonotone(cal: Calendar, a: int, b: int)
    requires Ordered(cal) && a <= b
    ensures cal.startOfDay(a) <= cal.startOfDay(b) && cal.endOfDay(a) <= cal.endOfDay(b)
  {
    if a < b {
      DaysInOrder(cal, a, b);
    }
  }

  /** The week window ends on day `today - 2 * dayOfWeek + 6`; it covers the whole of
      today exactly when today is Sunday to Wednesday. */
  lemma WeekWindowCoversTodayIff(cal: Calendar, now: int)
    requires Ordered(cal) && Placed(cal, now)
    ensures var d := cal.dayOf(now); var dow := cal.weekday(d);
      && WeekWindow(cal, now).to == cal.endOfDay(d - 2 * dow + 6)
      && (WeekWindow(cal, now).to >= cal.endOfDay(d) <==> dow <= 3)
  {
    var d := cal.dayOf(now);
    var dow := cal.weekday(d);
    var last := d - 2 * dow + 6;
    if last < d {
      DaysInOrder(cal, last, d);
    } else if last > d {
      DaysInOrder(cal, d, last);
    }
  }

  /** From Thursday to Saturday the week selector misses every sale made today. */
  lemma WeekWindowMissesTodayLateInWeek(sales: seq<Sale>, cal: Calendar, now: int)
    requires Ordered(cal) && Placed(cal, now) && cal.weekday(cal.dayOf(now)) >= 4
    ensures forall s :: s in SalesForThisWeek(sales, cal, now) ==>
      s.timestamp < cal.startOfDay(cal.dayOf(now))
  {
    var d := cal.dayOf(now);
    DaysInOrder(cal, d - 2 * cal.weekday(d) + 6, d);
    WindowSelection(sales, WeekWindow(cal, now));
  }

  /** The window the week selector evidently intends: Sunday 00:00 to Saturday 23:59:59.999. */
  function CalendarWeekWindow(cal: Calendar, now: int): (w: Window)
    requires Ordered(cal) && Placed(cal, now)
    ensures forall t :: TodayWindow(cal, now).Contains(t) ==> w.Contains(t)
    ensures cal.weekday(cal.dayOf(now)) == 0 ==> w == WeekWindow(cal, now)
  {
    var d := cal.dayOf(now);
    var sunday := d - cal.weekday(d);
    DaysMonotone(cal, sunday, d);
    DaysMonotone(cal, d, sunday + 6);
    Window(cal.startOfDay(sunday), cal.endOfDay(sunday + 6))
  }

  /** The month window contains the whole of today. */
  lemma MonthWindowCoversToday(cal: Calendar, now: int, t: int)
    requires Ordered(cal) && Placed(cal, now) && TodayWindow(cal, now).Contains(t)
    ensures MonthWindow(cal, now).Contains(t)
  {
    var d := cal.dayOf(now);
    var first := d - (cal.monthDay(d) - 1);
    var last := first + cal.monthLength(d) - 1;
    if first < d { DaysInOrder(cal, first, d); }
    if d < last { DaysInOrder(cal, d, last); }
  }

  // ---------------------------------------------------------------------------
  // Thunk guard and reducers

  const NoSession := "No session found, please log in first."
  const RecordSaleFailed := "Failed to record sale"

  /** The check `fetchSales` makes before sending any request: it goes on, with the
      session's user, only when the store says the user is authenticated and has a user. */
  function FetchSalesGuard(isAuthenticated: bool, user: Option<User>): (r: Result<User>)
    ensures r.Ok? <==> isAuthenticated && user.Some?
    ensures r.Ok? ==> r.value == user.value
    ensures r.Err? ==> r.error == NoSession
  {
    if !isAuthenticated || user.None? then Err(NoSession) else Ok(user.value)
  }

  /** The sales of `sales` on the local day `day` (`toDateString` equality); an
      unparseable selected date (`Invalid Date`) matches no sale. */
  function SalesOnDay(sales: seq<Sale>, cal: Calendar, day: Option<int>): seq<Sale> {
    Filter(sales, (s: Sale) => Some(cal.dayOf(s.timestamp)) == day)
  }

  /** A selected "date" that does not parse as a date, such as the label "Today",
      gives a filtered profit of 0. */
  lemma UnparsedDateFiltersNothing(sales: seq<Sale>, cal: Calendar)
    ensures TotalProfit(SalesOnDay(sales, cal, None)) == 0
  {
  }

  /** The `sales` slice. `totalProfit` holds the number `toFixed(2)` would format. */
  class SalesStore {
    var sales: seq<Sale>
    var totalProfit: int
    var filteredProfit: int
    var error: Option<string>
    var loading: bool
    var selectedDate: Option<string>

    constructor ()
      ensures sales == [] && totalProfit == 0 && filteredProfit == 0
      ensures error == None && !loading && selectedDate == None
    {
      sales, totalProfit, filteredProfit := [], 0, 0;
      error, loading, selectedDate := None, false, None;
    }

    method SetTotalProfit(profit: int)
      modifies this
      ensures totalProfit == profit
      ensures sales == old(sales) && filteredProfit == old(filteredProfit)
      ensures error == old(error) && loading == old(loading) && selectedDate == old(selectedDate)
    {
      totalProfit := profit;
    }

    method SetFilteredProfit(profit: int)
      modifies this
      ensures filteredProfit == profit
      ensures sales == old(sales) && totalProfit == old(totalProfit)
      ensures error == old(error) && loading == old(loading) && selectedDate == old(selectedDate)
    {
      filteredProfit := profit;
    }

    method SetSelectedDate(date: Option<string>)
      modifies this
      ensures selectedDate == date
      ensures sales == old(sales) && totalProfit == old(totalProfit)
      ensures filteredProfit == old(filteredProfit) && error == old(error) && loading == old(loading)
    {
      selectedDate := date;
    }

    method ResetFilteredProfit()
      modifies this
      ensures filteredProfit == 0
      ensures sales == old(sales) && totalProfit == old(totalProfit)
      ensures error == old(error) && loading == old(loading) && selectedDate == old(selectedDate)
    {
      filteredProfit := 0;
    }

    /** `fetchSales.pending` and `recordSale.pending`: only `loading` changes. */
    method Pending()
      modifies this
      ensures loading
      ensures sales == old(sales) && totalProfit == old(totalProfit)
      ensures filteredProfit == old(filteredProfit) && error == old(error) && selectedDate == old(selectedDate)
    {
      loading := true;
    }

    /** `fetchSales.fulfilled`: the list is replaced and both profits recomputed;
        `filteredProfit` only when a date is selected. */
    method FetchSalesFulfilled(payload: seq<Sale>, cal: Calendar, parseDate: string -> Option<int>)
      modifies this
      ensures !loading && sales == payload && totalProfit == TotalProfit(payload)
      ensures TruthyString(old(selectedDate)) ==>
        filteredProfit == TotalProfit(SalesOnDay(payload, cal, parseDate(old(selectedDate).value)))
      ensures !TruthyString(old(selectedDate)) ==> filteredProfit == old(filteredProfit)
      ensures error == old(error) && selectedDate == old(selectedDate)
    {
      loading := false;
      sales := payload;
      totalProfit := TotalProfit(payload);
      if TruthyString(selectedDate) {
        filteredProfit := TotalProfit(SalesOnDay(payload, cal, parseDate(selectedDate.value)));
      }
    }

    /** `fetchSales.rejected` */
    method FetchSalesRejected(payload: string)
      modifies this
      ensures !loading && error == Some(payload)
      ensures sales == old(sales) && totalProfit == old(totalProfit)
      ensures filteredProfit == old(filteredProfit) && selectedDate == old(selectedDate)
    {
      loading := false;
      error := Some(payload);
    }

    /** `recordSale.fulfilled`: the recorded sale is appended and the total profit
        recomputed over the whole list. */
    method RecordSaleFulfilled(sale: Sale)
      modifies this
      ensures !loading && sales == old(sales) + [sale]
      ensures totalProfit == TotalProfit(old(sales)) + SaleProfit(sale)
      ensures filteredProfit == old(filteredProfit) && error == old(error) && selectedDate == old(selectedDate)
    {
      loading := false;
      sales := sales + [sale];
      totalProfit := TotalProfit(sales);
      TotalProfitAppend(old(sales), [sale]);
      assert TotalProfit([sale]) == Sum([sale][..0], SaleProfit) + SaleProfit(sale);
    }

    /** `recordSale.rejected`: an empty message is replaced by the default one. */
    method RecordSaleRejected(payload: string)
      modifies this
      ensures !loading && error == Some(if payload == "" then RecordSaleFailed else payload)
      ensures sales == old(sales) && totalProfit == old(totalProfit)
      ensures filteredProfit == old(filteredProfit) && selectedDate == old(selectedDate)
    {
      loading := false;
      error := Some(if payload == "" then RecordSaleFailed else payload);
    }

    /** The whole `fetchSales` thunk: pending, then the session guard, then the request,
        whose reply is `server`. `requested` tells whether a request was sent. */
    method FetchSales(isAuthenticated: bool, user: Option<User>, server: Result<seq<Sale>>,
                      cal: Calendar, parseDate: string -> Option<int>)
      returns (requested: bool)
      modifies this
      ensures requested <==> isAuthenticated && user.Some?
      ensures !requested ==> error == Some(NoSession) && sales == old(sales)
      ensures requested && server.Ok? ==> sales == server.value && totalProfit == TotalProfit(server.value)
      ensures requested && server.Err? ==> error == Some(server.error) && sales == old(sales)
      ensures requested && server.Ok? ==> error == old(error)
      ensures requested && server.Ok? && TruthyString(old(selectedDate)) ==>
        filteredProfit == TotalProfit(SalesOnDay(server.value, cal, parseDate(old(selectedDate).value)))
      ensures requested && server.Ok? && !TruthyString(old(selectedDate)) ==> filteredProfit == old(filteredProfit)
      ensures (!requested || server.Err?) ==> totalProfit == old(totalProfit) && filteredProfit == old(filteredProfit)
      ensures !loading && selectedDate == old(selectedDate)
    {
      Pending();
      var guard := FetchSalesGuard(isAuthenticated, user);
      requested := guard.Ok?;
      if !requested {
        FetchSalesRejected(guard.error);
      } else if server.Ok? {
        FetchSalesFulfilled(server.value, cal, parseDate);
      } else {
        FetchSalesRejected(server.error);
      }
    }

    /** The whole `recordSale` thunk; `unwrap()` gives the recorded sale or throws the rejection. */
    method RecordSale(server: Result<Sale>) returns (r: Result<Sale>)
      modifies this
      ensures r == server && !loading
      ensures server.Ok? ==> sales == old(sales) + [server.value] && error == old(error)
      ensures server.Ok? ==> totalProfit == TotalProfit(old(sales)) + SaleProfit(server.value)
      ensures server.Err? ==> sales == old(sales) && totalProfit == old(totalProfit)
      ensures server.Err? ==> error == Some(if server.error == "" then RecordSaleFailed else server.error)
      ensures filteredProfit == old(filteredProfit) && selectedDate == old(selectedDate)
    {
      Pending();
      if server.Ok? {
        RecordSaleFulfilled(server.value);
      } else {
        RecordSaleRejected(server.error);
      }
      r := server;
    }
  }
}
