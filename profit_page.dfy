/** The profit page: which sales an option lists, the page's own per-sale profit (which,
    unlike the sales store's, has no guard on missing fields), the filtered profit, the
    "Items Sold" column, and the option selection. */
module ProfitPage {
  import opened Common
  import opened Types
  import opened SalesSlice

  /** `selectedOption` to listed sales: the three windows; Overall and anything else list nothing. */
  function Selection(option: string, sales: seq<Sale>, cal: Calendar, now: int): (r: seq<Sale>)
    ensures option == "Today" ==> r == SalesForToday(sales, cal, now)
    ensures option == "This Week" ==> r == SalesForThisWeek(sales, cal, now)
    ensures option == "This Month" ==> r == SalesForThisMonth(sales, cal, now)
    ensures option !in {"Today", "This Week", "This Month"} ==> r == []
  {
    match option
    case "Today" => SalesForToday(sales, cal, now)
    case "This Week" => SalesForThisWeek(sales, cal, now)
    case "This Month" => SalesForThisMonth(sales, cal, now)
    case _ => []
  }

  /** `(item.price - item.product_cost) * item.quantity`: a missing field makes it NaN. */
  function RawItemProfit(item: SaleItem): JsNumber {
    AsNumber(item.price).Minus(AsNumber(item.product_cost)).Times(AsNumber(item.quantity))
  }

  /** The page's `calculateProfitForSale`: reading `items` of a sale without them throws. */
  function PageSaleProfit(sale: Sale): Eval {
    if sale.items.None? then Throws else Value(JsSum(sale.items.value, RawItemProfit))
  }

  /** Every item has all three fields. */
  predicate Complete(items: seq<SaleItem>) {
    forall j :: 0 <= j < |items| ==>
      items[j].price.Some? && items[j].product_cost.Some? && items[j].quantity.Some?
  }

  /** On a sale whose items have every field, and no zero field, the page and the store
      agree on the profit. */
  lemma {:induction false} PageProfitAgreesWithStore(sale: Sale)
    requires sale.items.Some?
    requires forall j :: 0 <= j < |sale.items.value| ==> CountedItem(sale.items.value[j])
    ensures PageSaleProfit(sale) == Value(Finite(SaleProfit(sale)))
  {
    JsSumIsSum(sale.items.value, RawItemProfit, ItemProfit);
  }

  /** The page's profit of a sale is NaN exactly when some item lacks a field; it throws
      exactly when the sale has no items. */
  lemma PageProfitNaNIff(sale: Sale)
    ensures PageSaleProfit(sale).Throws? <==> sale.items.None?
    ensures sale.items.Some? ==> (PageSaleProfit(sale).v.NaN? <==> !Complete(sale.items.value))
  {
    if sale.items.Some? {
      JsSumIsSum(sale.items.value, RawItemProfit, (x: SaleItem) => if RawItemProfit(x).Finite? then RawItemProfit(x).n else 0);
    }
  }

  /** A zero cost is a real cost here: an item sold twice at 100 that cost 0 adds 200,
      where the store's guarded helper adds 0. */
  lemma ZeroCostCountsOnPage()
    ensures var item := SaleItem(1, 1, "sample", Some(100), Some(100), Some(0), Some(2), 1);
      RawItemProfit(item) == Finite(200) && ItemProfit(item) == 0
  {
  }

  /** `acc + calculateProfitForSale(sale)` folded over the listed sales from the left. */
  function ProfitOfSales(data: seq<Sale>): Eval {
    EvalSum(data, PageSaleProfit)
  }

  /** `calculateFilteredProfit`: 0 for Overall and for an empty list, otherwise the sum of
      the page's per-sale profits. */
  function FilteredProfit(option: string, sales: seq<Sale>, cal: Calendar, now: int): (r: Eval)
    ensures option == "Overall" ==> r == Value(Finite(0))
    ensures Selection(option, sales, cal, now) == [] ==> r == Value(Finite(0))
    ensures option != "Overall" && Selection(option, sales, cal, now) != [] ==>
      r == ProfitOfSales(Selection(option, sales, cal, now))
  {
    var data := if option == "Overall" then [] else Selection(option, sales, cal, now);
    if |data| > 0 then ProfitOfSales(data) else Value(Finite(0))
  }

  /** When every listed sale has items, each with every field truthy, the page's filtered
      profit is the store's total profit of the same sales. */
  lemma ProfitOfSalesAgreesWithStore(data: seq<Sale>)
    requires forall k :: 0 <= k < |data| ==>
      (data[k].items.Some? && forall j :: 0 <= j < |data[k].items.value| ==> CountedItem(data[k].items.value[j]))
    ensures ProfitOfSales(data) == Value(Finite(TotalProfit(data)))
  {
    forall k | 0 <= k < |data|
      ensures PageSaleProfit(data[k]) == Value(Finite(SaleProfit(data[k])))
    {
      PageProfitAgreesWithStore(data[k]);
    }
    EvalSumIsSum(data, PageSaleProfit, SaleProfit);
  }

  /** A sale without items makes the filtered profit throw. */
  lemma MissingItemsThrow(data: seq<Sale>, k: nat)
    requires k < |data| && data[k].items.None?
    ensures ProfitOfSales(data) == Throws
  {
    EvalSumThrows(data, PageSaleProfit, k);
  }

  /** The "Items Sold" cell: `value.length` on the sale's items, the number of item lines
      rather than the units sold; missing items make it throw. */
  function ItemsSold(sale: Sale): (r: Eval)
    ensures r.Throws? <==> sale.items.None?
    ensures r.Value? ==> r.v.Finite? && r.v.n == |sale.items.value|
  {
    if sale.items.None? then Throws else Value(Finite(|sale.items.value|))
  }

  /** The "Items Sold" cell throws on exactly the sales whose "Profit" cell throws, so a
      row renders either both cells or neither. */
  lemma ItemsSoldThrowsWithProfit(sale: Sale)
    ensures ItemsSold(sale).Throws? <==> PageSaleProfit(sale).Throws?
  {
  }

  /** One line of three units shows 1 item sold, not 3; a sale without items throws. */
  lemma ItemsSoldCountsLines()
    ensures ItemsSold(Sale(Some(1), 1, Some([SaleItem(1, 1, "sample", Some(5), Some(5), Some(3), Some(3), 1)]),
                           "cash", 0, Some(15))) == Value(Finite(1))
    ensures ItemsSold(Sale(Some(1), 1, None, "cash", 0, Some(15))) == Throws
  {
  }

  /** The page's option, kept apart from the store's selected date. */
  class ProfitScreen {
    var selectedOption: string

    constructor ()
      ensures selectedOption == "Overall"
    {
      selectedOption := "Overall";
    }

    /** On mount the page clears the store's selected date. */
    method Mount(store: SalesStore)
      modifies store
      ensures store.selectedDate == None
      ensures store.sales == old(store.sales) && store.totalProfit == old(store.totalProfit)
      ensures store.filteredProfit == old(store.filteredProfit)
      ensures store.error == old(store.error) && store.loading == old(store.loading)
    {
      store.SetSelectedDate(None);
    }

    /** `handleDateSelection`: the option label is both the page's option and the store's
        selected date. */
    method HandleDateSelection(option: string, store: SalesStore)
      modifies this, store
      ensures selectedOption == option && store.selectedDate == Some(option)
      ensures store.sales == old(store.sales) && store.totalProfit == old(store.totalProfit)
      ensures store.filteredProfit == old(store.filteredProfit)
      ensures store.error == old(store.error) && store.loading == old(store.loading)
    {
      selectedOption := option;
      store.SetSelectedDate(Some(option));
    }
  }
}
