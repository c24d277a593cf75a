/**
 * The Sales History tab: the time-frame picker's cutoffs, the sales that
 * match the search text and the time frame, and their total.
 */
module SalesHistory {
  import opened Wrappers
  import opened Text
  import opened Seqs
  import opened Records

  datatype TimeFrame = Today | ThisWeek | ThisMonth | AllTime

  /**
   * `TimeFrame.date` at time `now`: the start of today, seven days ago,
   * one month ago, and no cutoff for All Time.
   */
  function Cutoff(tf: TimeFrame, now: Date, calendar: Calendar): (r: Option<Date>)
    ensures r.None? <==> tf == AllTime
    ensures tf == Today ==> r == Some(calendar.startOfDay(now))
    ensures tf == ThisWeek ==> r == Some(calendar.addDays(now, -7))
    ensures tf == ThisMonth ==> r == Some(calendar.addMonths(now, -1))
  {
    match tf
    case Today => Some(calendar.startOfDay(now))
    case ThisWeek => Some(calendar.addDays(now, -7))
    case ThisMonth => Some(calendar.addMonths(now, -1))
    case AllTime => None
  }

  /** Empty search text, or the sold product's name contains it ignoring case. */
  predicate MatchesSearch(sale: SaleRecord, products: map<ObjectId, Product>, searchText: string) {
    searchText == [] ||
    (var name := ProductNameOf(products, sale.product); name.Some? && ContainsIgnoringCase(name.value, searchText))
  }

  /** No cutoff, or the sale's date (now when it has none) is at or after it. */
  predicate MatchesTimeFrame(sale: SaleRecord, cutoff: Option<Date>, now: Date) {
    cutoff.None? || sale.date.GetOr(now) >= cutoff.value
  }

  /**
   * `filteredSales` over the fetched sales (newest first): the sales that
   * match both the search and the time frame, in the same order.
   */
  function FilteredSales(sales: seq<SaleRecord>, products: map<ObjectId, Product>, searchText: string, cutoff: Option<Date>, now: Date): (r: seq<SaleRecord>)
    ensures forall s :: s in r <==> s in sales && MatchesSearch(s, products, searchText) && MatchesTimeFrame(s, cutoff, now)
    ensures IsSubsequence(r, sales)
  {
    Filter(sales, s => MatchesSearch(s, products, searchText) && MatchesTimeFrame(s, cutoff, now))
  }

  /** With empty search text and All Time, every sale is listed and the total is that of all sales. */
  lemma AllTimeListsEverything(sales: seq<SaleRecord>, products: map<ObjectId, Product>, now: Date, calendar: Calendar)
    ensures FilteredSales(sales, products, "", Cutoff(AllTime, now, calendar), now) == sales
    ensures TotalSales(sales, products, "", Cutoff(AllTime, now, calendar), now) == TotalOf(sales)
  {
    FilterKeepsAll(sales, s => MatchesSearch(s, products, "") && MatchesTimeFrame(s, None, now));
  }

  /** A sale whose product is gone or has no name never matches non-empty search text. */
  lemma UnnamedSalesNeverMatch(sale: SaleRecord, products: map<ObjectId, Product>, searchText: string)
    requires searchText != []
    requires ProductNameOf(products, sale.product).None?
    ensures !MatchesSearch(sale, products, searchText)
  {
  }

  /** `totalSales`: the sum of the listed sales' totals. */
  function TotalSales(sales: seq<SaleRecord>, products: map<ObjectId, Product>, searchText: string, cutoff: Option<Date>, now: Date): Money
  {
    TotalOf(FilteredSales(sales, products, searchText, cutoff, now))
  }

  /** The sales a filter keeps and the ones it drops add up to the total of all sales. */
  lemma {:induction false} FilterSplitsTotal(sales: seq<SaleRecord>, keep: SaleRecord -> bool)
    ensures TotalOf(Filter(sales, keep)) + TotalOf(Filter(sales, s => !keep(s))) == TotalOf(sales)
  {
    if sales != [] {
      var x, rest := sales[0], sales[1..];
      assert sales == [x] + rest;
      FilterSplitsTotal(rest, keep);
      TotalOfCons(x, rest);
      if keep(x) {
        TotalOfCons(x, Filter(rest, keep));
      } else {
        TotalOfCons(x, Filter(rest, s => !keep(s)));
      }
    }
  }

  /** The history is shown to managers and cashiers only. */
  function CanViewHistory(role: string): (allowed: bool)
    ensures allowed <==> role == "Manager" || role == "Cashier"
  {
    role == "Manager" || role == "Cashier"
  }
}
