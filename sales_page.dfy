/** The sales page: which list of sales a view shows, the total of that list, the
    "profit" figure shown beside it, and the subtotal of an item line. */
module SalesPage {
  import opened Common
  import opened Types
  import opened SalesSlice

  /** What a sale adds to the total: `sale.total || 0`. */
  function SaleTotal(sale: Sale): int {
    OrZero(sale.total)
  }

  /** `calculateTotalSales`, before `toFixed(2)` turns it into a string. */
  function TotalSales(sales: seq<Sale>): int {
    Sum(sales, SaleTotal)
  }

  /** A missing or zero total counts as 0, so the total is the sum over the sales that have
      a truthy total; the total of no sales is 0, and totals add up over concatenation. */
  lemma TotalSalesLaws(sales: seq<Sale>, more: seq<Sale>)
    ensures TotalSales(sales) == TotalSales(Filter(sales, (s: Sale) => Truthy(s.total)))
    ensures TotalSales(sales + more) == TotalSales(sales) + TotalSales(more)
    ensures TotalSales([]) == 0
  {
    SumOfFilter(sales, SaleTotal, (s: Sale) => Truthy(s.total));
    SumAppend(sales, more, SaleTotal);
  }

  /** `getSalesData`: daily, weekly and monthly pick the matching window, overall every
      sale, and any other view today's sales. */
  function SalesData(view: string, sales: seq<Sale>, cal: Calendar, now: int): (r: seq<Sale>)
    ensures view == "weekly" ==> r == SalesForThisWeek(sales, cal, now)
    ensures view == "monthly" ==> r == SalesForThisMonth(sales, cal, now)
    ensures view == "overall" ==> r == sales
    ensures view !in {"weekly", "monthly", "overall"} ==> r == SalesForToday(sales, cal, now)
  {
    match view
    case "daily" => SalesForToday(sales, cal, now)
    case "weekly" => SalesForThisWeek(sales, cal, now)
    case "monthly" => SalesForThisMonth(sales, cal, now)
    case "overall" => sales
    case _ => SalesForToday(sales, cal, now)
  }

  /** `getTotalSales`, a switch of its own over the same views. */
  function TotalSalesFor(view: string, sales: seq<Sale>, cal: Calendar, now: int): int {
    match view
    case "daily" => TotalSales(SalesForToday(sales, cal, now))
    case "weekly" => TotalSales(SalesForThisWeek(sales, cal, now))
    case "monthly" => TotalSales(SalesForThisMonth(sales, cal, now))
    case "overall" => TotalSales(sales)
    case _ => TotalSales(SalesForToday(sales, cal, now))
  }

  /** The total shown is always the total of the list shown, and no view shows more than
      every sale. */
  lemma TotalMatchesData(view: string, sales: seq<Sale>, cal: Calendar, now: int)
    ensures TotalSalesFor(view, sales, cal, now) == TotalSales(SalesData(view, sales, cal, now))
    ensures IsSubsequence(SalesData(view, sales, cal, now), sales)
  {
    if view == "overall" {
      FilterAll(sales, (s: Sale) => true);
      FilterIsSubsequence(sales, (s: Sale) => true);
    } else if view == "weekly" {
      WindowSelection(sales, WeekWindow(cal, now));
    } else if view == "monthly" {
      WindowSelection(sales, MonthWindow(cal, now));
    } else {
      WindowSelection(sales, TodayWindow(cal, now));
    }
  }

  /** `getProfit`: the overall view shows the store's profit of every sale; every other
      view shows the same figure as the total sales. */
  function DisplayedProfit(view: string, sales: seq<Sale>, cal: Calendar, now: int): (r: int)
    ensures view == "overall" ==> r == TotalProfit(sales)
    ensures view != "overall" ==> r == TotalSalesFor(view, sales, cal, now)
  {
    match view
    case "daily" => TotalSales(SalesForToday(sales, cal, now))
    case "weekly" => TotalSales(SalesForThisWeek(sales, cal, now))
    case "monthly" => TotalSales(SalesForThisMonth(sales, cal, now))
    case "overall" => TotalProfit(sales)
    case _ => TotalSales(SalesForToday(sales, cal, now))
  }

  /** The subtotal of an item line, `item.price * item.quantity`: NaN when either field
      is missing. */
  function Subtotal(item: SaleItem): (r: JsNumber)
    ensures r.Finite? <==> item.price.Some? && item.quantity.Some?
    ensures r.Finite? ==> r.n == item.price.value * item.quantity.value
  {
    AsNumber(item.price).Times(AsNumber(item.quantity))
  }
}
