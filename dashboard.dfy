/** The dashboard: today's sales by UTC date, their total, the order count, the units
    sold, the low-stock list, the seven weekday buckets of the chart, and the cards'
    trend colour and visibility. */
module Dashboard {
  import opened Common
  import opened Types
  import InventoryPage

  const MsPerDay := 86400000

  /** The UTC calendar day of an instant, which is what the date part of `toISOString()` names. */
  function UtcDay(t: int): int {
    t / MsPerDay
  }

  /** Two instants share a UTC date exactly when the first lies in the 24 hours starting at
      the UTC midnight of the second. */
  lemma SameUtcDayIff(t: int, now: int)
    ensures UtcDay(t) == UtcDay(now) <==>
      UtcDay(now) * MsPerDay <= t < UtcDay(now) * MsPerDay + MsPerDay
  {
  }

  /** `dailySales`: the sales whose UTC date is today's UTC date. */
  function DailySales(sales: seq<Sale>, now: int): seq<Sale> {
    Filter(sales, (s: Sale) => UtcDay(s.timestamp) == UtcDay(now))
  }

  /** `dailySales` keeps exactly today's sales, in order. */
  lemma DailySalesExactly(sales: seq<Sale>, now: int)
    ensures forall s :: s in DailySales(sales, now) <==> s in sales && UtcDay(s.timestamp) == UtcDay(now)
    ensures IsSubsequence(DailySales(sales, now), sales)
  {
    forall s {
      FilterMembership(sales, (x: Sale) => UtcDay(x.timestamp) == UtcDay(now), s);
    }
    FilterIsSubsequence(sales, (x: Sale) => UtcDay(x.timestamp) == UtcDay(now));
  }

  /** `sale.total` as a number: NaN when missing. */
  function TotalOf(sale: Sale): JsNumber {
    AsNumber(sale.total)
  }

  /** `item.quantity` as a number: NaN when missing. */
  function UnitsOf(item: SaleItem): JsNumber {
    AsNumber(item.quantity)
  }

  /** The units of one sale; reading `items` of a sale without them throws. */
  function SaleUnits(sale: Sale): Eval {
    if sale.items.None? then Throws else Value(JsSum(sale.items.value, UnitsOf))
  }

  /** `dailyProducts`: the units of every sale summed. */
  function UnitsSold(daily: seq<Sale>): Eval {
    EvalSum(daily, SaleUnits)
  }

  /** The quantities of a sale's items, summed; 0 for a sale without items. */
  function Quantity(sale: Sale): int {
    if sale.items.None? then 0 else Sum(sale.items.value, (i: SaleItem) => OrZero(i.quantity))
  }

  /** Every sale has items and every item a quantity. */
  predicate AllQuantitiesPresent(daily: seq<Sale>) {
    forall k :: 0 <= k < |daily| ==>
      (daily[k].items.Some? && forall j :: 0 <= j < |daily[k].items.value| ==> daily[k].items.value[j].quantity.Some?)
  }

  /** When every sale has items and every item a quantity, the units sold is the sum of all
      the quantities; a sale without items makes the whole computation throw. */
  lemma UnitsSoldIsSumOfQuantities(daily: seq<Sale>)
    ensures AllQuantitiesPresent(daily) ==> UnitsSold(daily) == Value(Finite(Sum(daily, Quantity)))
    ensures (exists k :: 0 <= k < |daily| && daily[k].items.None?) ==> UnitsSold(daily) == Throws
  {
    if AllQuantitiesPresent(daily) {
      forall k | 0 <= k < |daily|
        ensures SaleUnits(daily[k]) == Value(Finite(Quantity(daily[k])))
      {
        var items := daily[k].items.value;
        JsSumIsSum(items, UnitsOf, (i: SaleItem) => OrZero(i.quantity));
      }
      EvalSumIsSum(daily, SaleUnits, Quantity);
    }
    if exists k :: 0 <= k < |daily| && daily[k].items.None? {
      var k :| 0 <= k < |daily| && daily[k].items.None?;
      EvalSumThrows(daily, SaleUnits, k);
    }
  }

  /** `lowStock`: the products strictly below their reorder point. */
  function LowStock(products: seq<Product>): seq<Product> {
    Filter(products, (p: Product) => p.quantity < p.reorder_point)
  }

  /** A product is listed exactly when its stock is strictly below its reorder point; a
      product exactly at its reorder point is not listed. */
  lemma LowStockExactly(products: seq<Product>)
    ensures forall p :: p in LowStock(products) <==> p in products && p.quantity < p.reorder_point
    ensures IsSubsequence(LowStock(products), products)
  {
    forall p {
      FilterMembership(products, (x: Product) => x.quantity < x.reorder_point, p);
    }
    FilterIsSubsequence(products, (x: Product) => x.quantity < x.reorder_point);
  }

  // ---------------------------------------------------------------------------
  // Weekday buckets

  /** The total of the sales whose local weekday (`getDay()`) is `d`. */
  function DayTotal(sales: seq<Sale>, weekday: int -> int, d: int): JsNumber {
    JsSum(Filter(sales, (s: Sale) => weekday(s.timestamp) == d), TotalOf)
  }

  /** The seven buckets, Sunday first. */
  function Buckets(sales: seq<Sale>, weekday: int -> int): (r: seq<JsNumber>)
    ensures |r| == 7 && forall d :: 0 <= d < 7 ==> r[d] == DayTotal(sales, weekday, d)
  {
    seq(7, d requires 0 <= d < 7 => DayTotal(sales, weekday, d))
  }

  /** Adding one sale adds its total to its own weekday's bucket only. */
  lemma DayTotalStep(sales: seq<Sale>, sale: Sale, weekday: int -> int, d: int)
    ensures DayTotal(sales + [sale], weekday, d) ==
      if weekday(sale.timestamp) == d then DayTotal(sales, weekday, d).Plus(TotalOf(sale))
      else DayTotal(sales, weekday, d)
  {
    var keep := (s: Sale) => weekday(s.timestamp) == d;
    FilterAppend(sales, [sale], keep);
    var a := Filter(sales, keep);
    assert [sale][1..] == [];
    if keep(sale) {
      assert Filter([sale], keep) == [sale];
      assert (a + [sale])[..|a|] == a;
    } else {
      assert Filter([sale], keep) == [];
      assert a + [] == a;
    }
  }

  /** The weekly loop: `weekly[day] += sale.total` for every sale, into seven zeroed slots. */
  method WeeklySales(sales: seq<Sale>, weekday: int -> int) returns (weekly: seq<JsNumber>)
    requires forall t :: 0 <= weekday(t) < 7
    ensures weekly == Buckets(sales, weekday)
  {
    var slots := new JsNumber[7](_ => Finite(0));
    var i := 0;
    while i < |sales|
      invariant 0 <= i <= |sales|
      invariant forall d :: 0 <= d < 7 ==> slots[d] == DayTotal(sales[..i], weekday, d)
    {
      var sale := sales[i];
      var day := weekday(sale.timestamp);
      assert sales[..i + 1] == sales[..i] + [sale];
      forall d | 0 <= d < 7 {
        DayTotalStep(sales[..i], sale, weekday, d);
      }
      slots[day] := slots[day].Plus(TotalOf(sale));
      i := i + 1;
    }
    assert sales[..i] == sales;
    weekly := slots[..];
  }

  function Self(x: JsNumber): JsNumber {
    x
  }

  /** Adding `v` to one element of a list adds `v` to its sum. */
  lemma {:induction false} JsSumBump(b: seq<JsNumber>, k: nat, v: JsNumber)
    requires k < |b|
    ensures JsSum(b[k := b[k].Plus(v)], Self) == JsSum(b, Self).Plus(v)
  {
    var b' := b[k := b[k].Plus(v)];
    if k < |b| - 1 {
      JsSumBump(b[..|b| - 1], k, v);
      assert b'[..|b| - 1] == b[..|b| - 1][k := b[k].Plus(v)];
    } else {
      assert b'[..|b| - 1] == b[..|b| - 1];
    }
  }

  /** A list of zeros sums to 0. */
  lemma {:induction false} JsSumZeros(b: seq<JsNumber>)
    requires forall j :: 0 <= j < |b| ==> b[j] == Finite(0)
    ensures JsSum(b, Self) == Finite(0)
  {
    if |b| > 0 {
      JsSumZeros(b[..|b| - 1]);
    }
  }

  /** Adding one sale bumps exactly its weekday's bucket by its total. */
  lemma BucketsStep(sales: seq<Sale>, sale: Sale, weekday: int -> int)
    requires 0 <= weekday(sale.timestamp) < 7
    ensures var day := weekday(sale.timestamp);
      Buckets(sales + [sale], weekday) ==
        Buckets(sales, weekday)[day := Buckets(sales, weekday)[day].Plus(TotalOf(sale))]
  {
    var day := weekday(sale.timestamp);
    var before := Buckets(sales, weekday);
    var after := Buckets(sales + [sale], weekday);
    var bumped := before[day := before[day].Plus(TotalOf(sale))];
    forall d | 0 <= d < 7
      ensures after[d] == bumped[d]
    {
      DayTotalStep(sales, sale, weekday, d);
    }
  }

  /** The seven buckets add up to the total of every sale (NaN on both sides when a sale
      has no total). */
  lemma {:induction false} BucketsAddUpToTotal(sales: seq<Sale>, weekday: int -> int)
    requires forall t :: 0 <= weekday(t) < 7
    ensures JsSum(Buckets(sales, weekday), Self) == JsSum(sales, TotalOf)
  {
    if |sales| == 0 {
      JsSumZeros(Buckets(sales, weekday));
    } else {
      var init := sales[..|sales| - 1];
      var sale := sales[|sales| - 1];
      assert sales == init + [sale];
      BucketsAddUpToTotal(init, weekday);
      BucketsStep(init, sale, weekday);
      var before := Buckets(init, weekday);
      JsSumBump(before, weekday(sale.timestamp), TotalOf(sale));
    }
  }

  // ---------------------------------------------------------------------------
  // Cards

  /** `DashboardCard`: a trend is drawn in green exactly when it starts with '+'. */
  predicate IsPositiveTrend(trend: string) {
    |trend| > 0 && trend[0] == '+'
  }

  /** The four trends the page passes to its cards, which are the only trends it ever
      shows: all green except the low-stock card's "-2". */
  lemma CardTrends()
    ensures IsPositiveTrend("+12.5%") && IsPositiveTrend("+8.2%") && IsPositiveTrend("+5")
    ensures !IsPositiveTrend("-2")
  {
  }

  /** The low-stock card's gate: the role is not "cashier". */
  predicate ShowLowStockCard(role: Option<string>) {
    role != Some("cashier")
  }

  /** The low-stock card by the role of the signed-in user: a cashier does not see it;
      an admin, a manager, a user with any other role and no user at all (whose role is
      undefined) do; and whoever may add products on the inventory page sees it. */
  lemma LowStockCardByRole(user: Option<User>)
    ensures RoleOf(user) == Some("cashier") ==> !ShowLowStockCard(RoleOf(user))
    ensures RoleOf(user) != Some("cashier") ==> ShowLowStockCard(RoleOf(user))
    ensures RoleOf(user) in {Some("admin"), Some("manager")} ==> ShowLowStockCard(RoleOf(user))
    ensures user.None? ==> ShowLowStockCard(RoleOf(user))
    ensures InventoryPage.ShowAddProduct(RoleOf(user)) ==> ShowLowStockCard(RoleOf(user))
  {
  }

  const DaysOfWeek := ["Sun", "Mon", "Tue", "Wed", "Thu", "Fri", "Sat"]

  /** The dashboard's state. */
  class DashboardScreen {
    var totalSales: JsNumber
    var totalOrders: nat
    var lowStockItems: seq<Product>
    var totalDailyProducts: JsNumber
    var weeklyLabels: seq<string>
    var weeklyData: seq<JsNumber>

    constructor ()
      ensures totalSales == Finite(0) && totalOrders == 0 && lowStockItems == []
      ensures totalDailyProducts == Finite(0) && weeklyLabels == [] && weeklyData == []
    {
      totalSales, totalOrders, lowStockItems := Finite(0), 0, [];
      totalDailyProducts, weeklyLabels, weeklyData := Finite(0), [], [];
    }

    /** `fetchDashboardData` after its two requests: `sales` and `products` are their
        answers, `None` when the request failed. A throw (a failed request, or a sale of
        today without items) skips everything after it. */
    method FetchDashboardData(sales: Option<seq<Sale>>, products: Option<seq<Product>>, now: int,
                              weekday: int -> int)
      requires forall t :: 0 <= weekday(t) < 7
      modifies this
      ensures sales.None? || UnitsSold(DailySales(sales.value, now)).Throws? ==>
        && totalSales == old(totalSales) && totalOrders == old(totalOrders)
        && totalDailyProducts == old(totalDailyProducts) && lowStockItems == old(lowStockItems)
        && weeklyLabels == old(weeklyLabels) && weeklyData == old(weeklyData)
      ensures sales.Some? && UnitsSold(DailySales(sales.value, now)).Value? ==>
        var daily := DailySales(sales.value, now);
        && totalSales == JsSum(daily, TotalOf) && totalOrders == |daily|
        && totalDailyProducts == UnitsSold(daily).v
        && (products.None? ==>
              lowStockItems == old(lowStockItems) && weeklyLabels == old(weeklyLabels) && weeklyData == old(weeklyData))
        && (products.Some? ==>
              lowStockItems == LowStock(products.value) && weeklyLabels == DaysOfWeek
              && weeklyData == Buckets(sales.value, weekday))
    {
      if sales.None? {
        return;
      }
      var daily := DailySales(sales.value, now);
      var units := UnitsSold(daily);
      if units.Throws? {
        return;
      }
      ShowToday(daily, units.v);
      if products.None? {
        return;
      }
      ShowStockAndWeek(sales.value, products.value, weekday);
    }

    /** The first three `set...` calls: today's total, order count and units. */
    method ShowToday(daily: seq<Sale>, units: JsNumber)
      modifies this
      ensures totalSales == JsSum(daily, TotalOf) && totalOrders == |daily| && totalDailyProducts == units
      ensures lowStockItems == old(lowStockItems) && weeklyLabels == old(weeklyLabels) && weeklyData == old(weeklyData)
    {
      totalSales := JsSum(daily, TotalOf);
      totalOrders := |daily|;
      totalDailyProducts := units;
    }

    /** The calls after the products request: the low-stock list and the week's buckets. */
    method ShowStockAndWeek(sales: seq<Sale>, products: seq<Product>, weekday: int -> int)
      requires forall t :: 0 <= weekday(t) < 7
      modifies this
      ensures lowStockItems == LowStock(products) && weeklyLabels == DaysOfWeek
      ensures weeklyData == Buckets(sales, weekday)
      ensures totalSales == old(totalSales) && totalOrders == old(totalOrders)
      ensures totalDailyProducts == old(totalDailyProducts)
    {
      lowStockItems := LowStock(products);
      var weekly := WeeklySales(sales, weekday);
      weeklyLabels := DaysOfWeek;
      weeklyData := weekly;
    }
  }
}
