/**
 * The Reports tab: the sales inside the chosen window, grouped by day in
 * ascending order, their total and daily average, the inventory chart's
 * low-stock colouring and count, and the two CSV exports.
 */
module Reports {
  import opened Wrappers
  import opened Integers
  import opened Text
  import opened Seqs
  import opened Records
  import Notifications

  datatype TimeFrame = ThisWeek | ThisMonth | ThisYear

  datatype ChartType = SalesTrend | InventoryStatus

  /** `TimeFrame.date` at time `now`: seven days, one month or one year back. */
  function Cutoff(tf: TimeFrame, now: Date, calendar: Calendar): (r: Date)
    ensures tf == ThisWeek ==> r == calendar.addDays(now, -7)
    ensures tf == ThisMonth ==> r == calendar.addMonths(now, -1)
    ensures tf == ThisYear ==> r == calendar.addYears(now, -1)
  {
    match tf
    case ThisWeek => calendar.addDays(now, -7)
    case ThisMonth => calendar.addMonths(now, -1)
    case ThisYear => calendar.addYears(now, -1)
  }

  /** `filteredSales` over the fetched sales (oldest first): those dated at or after the cutoff, in order. */
  function FilteredSales(sales: seq<SaleRecord>, cutoff: Date, now: Date): (r: seq<SaleRecord>)
    ensures forall s :: s in r <==> s in sales && s.date.GetOr(now) >= cutoff
    ensures IsSubsequence(r, sales)
  {
    Filter(sales, (s: SaleRecord) => s.date.GetOr(now) >= cutoff)
  }

  /** One point of the sales trend: a day and the amount sold on it. */
  datatype DayTotal = DayTotal(day: Date, amount: Money)

  predicate Ascending(days: seq<DayTotal>) {
    forall i, j :: 0 <= i < j < |days| ==> days[i].day < days[j].day
  }

  function DaysOf(days: seq<DayTotal>): set<Date> {
    set d | d in days :: d.day
  }

  function SumAmounts(days: seq<DayTotal>): Money {
    if days == [] then 0.0 else days[0].amount + SumAmounts(days[1..])
  }

  /** Adds `amount` to the entry for `day`, or inserts a new entry where the ascending order puts it. */
  function AddTo(days: seq<DayTotal>, day: Date, amount: Money): seq<DayTotal>
  {
    if days == [] then [DayTotal(day, amount)]
    else if days[0].day == day then [DayTotal(day, days[0].amount + amount)] + days[1..]
    else if day < days[0].day then [DayTotal(day, amount)] + days
    else [days[0]] + AddTo(days[1..], day, amount)
  }

  lemma {:induction false} AddToSum(days: seq<DayTotal>, day: Date, amount: Money)
    ensures SumAmounts(AddTo(days, day, amount)) == SumAmounts(days) + amount
  {
    if days != [] {
      var r := AddTo(days, day, amount);
      if days[0].day == day {
        assert r[1..] == days[1..];
      } else if day < days[0].day {
        assert r[1..] == days;
      } else {
        AddToSum(days[1..], day, amount);
        assert r[1..] == AddTo(days[1..], day, amount);
      }
    }
  }

  lemma DaysOfCons(d: DayTotal, rest: seq<DayTotal>)
    ensures DaysOf([d] + rest) == {d.day} + DaysOf(rest)
  {
    var all := [d] + rest;
    forall x | x in DaysOf(all) ensures x in {d.day} + DaysOf(rest) {
      var e :| e in all && e.day == x;
      if e != d {
        assert e in rest;
      }
    }
    forall x | x in DaysOf(rest) ensures x in DaysOf(all) {
      var e :| e in rest && e.day == x;
      assert e in all;
    }
    assert d in all;
  }

  lemma {:induction false} AddToDays(days: seq<DayTotal>, day: Date, amount: Money)
    ensures DaysOf(AddTo(days, day, amount)) == DaysOf(days) + {day}
  {
    if days == [] {
      assert AddTo(days, day, amount) == [DayTotal(day, amount)] + [];
      DaysOfCons(DayTotal(day, amount), []);
    } else {
      var d, rest := days[0], days[1..];
      assert days == [d] + rest;
      DaysOfCons(d, rest);
      if d.day == day {
        DaysOfCons(DayTotal(day, d.amount + amount), rest);
      } else if day < d.day {
        DaysOfCons(DayTotal(day, amount), days);
      } else {
        AddToDays(rest, day, amount);
        DaysOfCons(d, AddTo(rest, day, amount));
      }
    }
  }

  lemma {:induction false} AddToAscending(days: seq<DayTotal>, day: Date, amount: Money)
    requires Ascending(days)
    ensures Ascending(AddTo(days, day, amount))
  {
    if days != [] && days[0].day != day && days[0].day < day {
      var rest := days[1..];
      assert Ascending(rest) by {
        forall i, j | 0 <= i < j < |rest| ensures rest[i].day < rest[j].day {
          assert rest[i] == days[i + 1] && rest[j] == days[j + 1];
        }
      }
      AddToAscending(rest, day, amount);
      AddToDays(rest, day, amount);
      var tail := AddTo(rest, day, amount);
      var r := AddTo(days, day, amount);
      assert r == [days[0]] + tail;
      forall k | 0 <= k < |tail| ensures days[0].day < tail[k].day {
        assert tail[k].day in DaysOf(tail);
        if tail[k].day != day {
          var m :| 0 <= m < |rest| && rest[m].day == tail[k].day;
          assert rest[m] == days[m + 1];
        }
      }
    }
  }

  /**
   * `dailySales`: the sales grouped by `dayOf` (the start of the sale's
   * day), one entry per day with the sum of its totals, sorted by day.
   */
  function DailySales(sales: seq<SaleRecord>, dayOf: SaleRecord -> Date): seq<DayTotal>
  {
    if sales == [] then []
    else
      var last := sales[|sales| - 1];
      AddTo(DailySales(sales[..|sales| - 1], dayOf), dayOf(last), last.totalPrice)
  }

  lemma SaleDaysSnoc(all: seq<SaleRecord>, dayOf: SaleRecord -> Date)
    requires all != []
    ensures var init, last := all[..|all| - 1], all[|all| - 1];
      (set s | s in all :: dayOf(s)) == (set s | s in init :: dayOf(s)) + {dayOf(last)}
  {
    var init, last := all[..|all| - 1], all[|all| - 1];
    var days := set s | s in all :: dayOf(s);
    var initDays := set s | s in init :: dayOf(s);
    forall x | x in days ensures x in initDays + {dayOf(last)} {
      var e :| e in all && dayOf(e) == x;
      if e != last {
        var k :| 0 <= k < |all| && all[k] == e;
        assert init[k] == e;
      }
    }
    forall x | x in initDays ensures x in days {
      var e :| e in init && dayOf(e) == x;
      assert e in all;
    }
    assert last in all;
  }

  /**
   * The trend has exactly one entry per day on which a sale falls, in
   * strictly ascending order, and its amounts add up to the total of the
   * sales.
   */
  lemma {:induction false} DailySalesShape(sales: seq<SaleRecord>, dayOf: SaleRecord -> Date)
    ensures var days := DailySales(sales, dayOf);
      && Ascending(days)
      && DaysOf(days) == (set s | s in sales :: dayOf(s))
      && SumAmounts(days) == TotalOf(sales)
  {
    if sales != [] {
      var init := sales[..|sales| - 1];
      var last := sales[|sales| - 1];
      DailySalesShape(init, dayOf);
      AddToAscending(DailySales(init, dayOf), dayOf(last), last.totalPrice);
      AddToDays(DailySales(init, dayOf), dayOf(last), last.totalPrice);
      AddToSum(DailySales(init, dayOf), dayOf(last), last.totalPrice);
      SaleDaysSnoc(sales, dayOf);
    }
  }

  /** The amount the trend shows for day `d`: the sum of the amounts of its entries for `d`. */
  function DayAmount(days: seq<DayTotal>, d: Date): Money {
    if days == [] then 0.0 else (if days[0].day == d then days[0].amount else 0.0) + DayAmount(days[1..], d)
  }

  /** Adding to a day changes that day's amount by exactly the sale's total and leaves the other days alone. */
  lemma {:induction false} AddToAmount(days: seq<DayTotal>, day: Date, amount: Money, d: Date)
    ensures DayAmount(AddTo(days, day, amount), d) == DayAmount(days, d) + (if d == day then amount else 0.0)
  {
    if days != [] {
      var r := AddTo(days, day, amount);
      if days[0].day == day {
        assert r[1..] == days[1..];
      } else if day < days[0].day {
        assert r[1..] == days;
      } else {
        AddToAmount(days[1..], day, amount, d);
        assert r[1..] == AddTo(days[1..], day, amount);
      }
    }
  }

  /** A day without an entry has amount 0. */
  lemma {:induction false} DayAmountAbsent(days: seq<DayTotal>, d: Date)
    requires forall k :: 0 <= k < |days| ==> days[k].day != d
    ensures DayAmount(days, d) == 0.0
  {
    if days != [] {
      DayAmountAbsent(days[1..], d);
    }
  }

  /** In a strictly ascending trend, a day's amount is the amount of its single entry. */
  lemma {:induction false} DayAmountOfEntry(days: seq<DayTotal>, k: nat)
    requires Ascending(days) && k < |days|
    ensures DayAmount(days, days[k].day) == days[k].amount
  {
    var rest := days[1..];
    assert Ascending(rest) by {
      forall i, j | 0 <= i < j < |rest| ensures rest[i].day < rest[j].day {
        assert rest[i] == days[i + 1] && rest[j] == days[j + 1];
      }
    }
    if k == 0 {
      forall m | 0 <= m < |rest| ensures rest[m].day != days[0].day {
        assert rest[m] == days[m + 1];
      }
      DayAmountAbsent(rest, days[0].day);
    } else {
      assert days[k] == rest[k - 1];
      DayAmountOfEntry(rest, k - 1);
    }
  }

  /** Whether a sale falls on day `d`. */
  function OnDay(dayOf: SaleRecord -> Date, d: Date): SaleRecord -> bool {
    s => dayOf(s) == d
  }

  /** Filtering a sequence that ends with `x` keeps `x` last if it is accepted. */
  lemma {:induction false} FilterSnoc(s: seq<SaleRecord>, x: SaleRecord, keep: SaleRecord -> bool)
    ensures Filter(s + [x], keep) == Filter(s, keep) + Kept(x, keep)
  {
    if s == [] {
      assert [] + [x] == [x] + [];
      FilterCons(x, [], keep);
    } else {
      assert s + [x] == [s[0]] + (s[1..] + [x]);
      assert s == [s[0]] + s[1..];
      FilterCons(s[0], s[1..] + [x], keep);
      FilterCons(s[0], s[1..], keep);
      FilterSnoc(s[1..], x, keep);
      AppendAssociative(Kept(s[0], keep), Filter(s[1..], keep), Kept(x, keep));
    }
  }

  /** The trend's amount for any day is the total of the sales that fall on it. */
  lemma {:induction false} DailySalesAmounts(sales: seq<SaleRecord>, dayOf: SaleRecord -> Date, d: Date)
    ensures DayAmount(DailySales(sales, dayOf), d) == TotalOf(Filter(sales, OnDay(dayOf, d)))
  {
    if sales != [] {
      var init := sales[..|sales| - 1];
      var last := sales[|sales| - 1];
      DailySalesAmounts(init, dayOf, d);
      AddToAmount(DailySales(init, dayOf), dayOf(last), last.totalPrice, d);
      assert sales == init + [last];
      FilterSnoc(init, last, OnDay(dayOf, d));
      TotalOfConcat(Filter(init, OnDay(dayOf, d)), Kept(last, OnDay(dayOf, d)));
      if dayOf(last) == d {
        assert Kept(last, OnDay(dayOf, d)) == [last];
        assert [last][..0] == [];
      }
    }
  }

  /** Each entry of the trend carries exactly the total of the sales on its day. */
  lemma DailyEntryIsDayTotal(sales: seq<SaleRecord>, dayOf: SaleRecord -> Date, k: nat)
    requires k < |DailySales(sales, dayOf)|
    ensures var e := DailySales(sales, dayOf)[k];
      e.amount == TotalOf(Filter(sales, OnDay(dayOf, e.day)))
  {
    var days := DailySales(sales, dayOf);
    DailySalesShape(sales, dayOf);
    DayAmountOfEntry(days, k);
    DailySalesAmounts(sales, dayOf, days[k].day);
  }

  /** The day of a report sale: the start of its date's day, `now` standing in for a missing date. */
  function DayOfSale(calendar: Calendar, now: Date): SaleRecord -> Date {
    (s: SaleRecord) => calendar.startOfDay(s.date.GetOr(now))
  }

  /** `totalSales`: the sum of the totals of the sales in the window. */
  function TotalSales(sales: seq<SaleRecord>, cutoff: Date, now: Date): Money {
    TotalOf(FilteredSales(sales, cutoff, now))
  }

  /** The sales trend's daily amounts add up to the total shown beside it. */
  lemma DailyAmountsAddUpToTotal(sales: seq<SaleRecord>, cutoff: Date, now: Date, calendar: Calendar)
    ensures SumAmounts(DailySales(FilteredSales(sales, cutoff, now), DayOfSale(calendar, now))) == TotalSales(sales, cutoff, now)
  {
    DailySalesShape(FilteredSales(sales, cutoff, now), DayOfSale(calendar, now));
  }

  /** `averageDailySales`: 0 without days, otherwise the total shared out over the days. */
  function AverageDailySales(sales: seq<SaleRecord>, dayOf: SaleRecord -> Date): (r: Money)
    ensures DailySales(sales, dayOf) == [] ==> r == 0.0
    ensures DailySales(sales, dayOf) != [] ==> r * |DailySales(sales, dayOf)| as real == TotalOf(sales)
  {
    var days := DailySales(sales, dayOf);
    if |days| == 0 then 0.0 else TotalOf(sales) / |days| as real
  }

  /** There are no days exactly when there are no sales in the window. */
  lemma NoDaysIffNoSales(sales: seq<SaleRecord>, dayOf: SaleRecord -> Date)
    ensures DailySales(sales, dayOf) == [] <==> sales == []
  {
    DailySalesShape(sales, dayOf);
    if sales != [] {
      assert dayOf(sales[0]) in DaysOf(DailySales(sales, dayOf));
    }
  }

  datatype BarColour = Red | Blue

  /** The inventory chart's bar colour: red at or below the threshold, blue above it. */
  function BarColourOf(p: Product): (c: BarColour)
    ensures c == Red <==> IsLowStock(p)
  {
    if p.quantity <= p.lowStockThreshold then Red else Blue
  }

  /** Whether an id names a stored product at or below its threshold. */
  function LowStockIn(products: map<ObjectId, Product>): ObjectId -> bool {
    id => id in products && IsLowStock(products[id])
  }

  /** "Low Stock Items": how many products of the listing are at or below their threshold. */
  function LowStockCount(listing: seq<ObjectId>, products: map<ObjectId, Product>): (n: nat)
    ensures n <= |listing|
  {
    |Filter(listing, LowStockIn(products))|
  }

  /** Over a listing of distinct products, the count is the number of low-stock products the notification check alerts on. */
  lemma LowStockCountMatchesAlerts(listing: seq<ObjectId>, products: map<ObjectId, Product>)
    requires Distinct(listing)
    ensures LowStockCount(listing, products) == |Notifications.LowStockIds(listing, products)|
  {
    var keep := LowStockIn(products);
    FilterCountsDistinct(listing, keep, Notifications.LowStockIds(listing, products));
  }

  /** What the Reports tab shows: the reports themselves, or the no-permission message. */
  datatype ReportsScreen = ReportsShown | NoPermissionMessage

  /** The reports are shown to managers only; every other role gets the message. */
  function ScreenFor(role: string): (screen: ReportsScreen)
    ensures screen == ReportsShown <==> role == "Manager"
  {
    if role == "Manager" then ReportsShown else NoPermissionMessage
  }

  const SALES_HEADER := "Date,Product,Quantity,Total Price\n"
  const INVENTORY_HEADER := "Product,Quantity,Purchase Price,Selling Price,Low Stock Threshold\n"

  /**
   * One line of the sales export: the short date (`formatDate`, with `now`
   * for a missing date), the product name or "", the quantity and the
   * total as "%.2f" (`formatPrice`), joined by commas without quoting.
   */
  function SalesLine(sale: SaleRecord, products: map<ObjectId, Product>, now: Date,
                     formatDate: Date -> string, formatPrice: Money -> string): string
  {
    formatDate(sale.date.GetOr(now)) + "," + ProductNameOf(products, sale.product).GetOr("") + ","
      + IntText(sale.quantity) + "," + formatPrice(sale.totalPrice) + "\n"
  }

  function SalesRows(sales: seq<SaleRecord>, products: map<ObjectId, Product>, now: Date,
                     formatDate: Date -> string, formatPrice: Money -> string): string
  {
    if sales == [] then ""
    else
      var last := sales[|sales| - 1];
      SalesRows(sales[..|sales| - 1], products, now, formatDate, formatPrice) + SalesLine(last, products, now, formatDate, formatPrice)
  }

  /**
   * One line of the inventory export: the name or "", the quantity, both
   * prices as `Double` descriptions (`describePrice`) and the threshold.
   */
  function InventoryLine(p: Product, describePrice: Money -> string): string
  {
    p.name.GetOr("") + "," + IntText(p.quantity) + "," + describePrice(p.purchasePrice) + ","
      + describePrice(p.sellingPrice) + "," + IntText(p.lowStockThreshold) + "\n"
  }

  function InventoryRows(listing: seq<ObjectId>, products: map<ObjectId, Product>, describePrice: Money -> string): string
    requires forall id <- listing :: id in products
  {
    if listing == [] then ""
    else
      var last := listing[|listing| - 1];
      InventoryRows(listing[..|listing| - 1], products, describePrice) + InventoryLine(products[last], describePrice)
  }

  /**
   * `generateSalesDetailsCSV()`: the header, then one line per sale of the
   * window (`filteredSales`), in order; sales before the cutoff are left out.
   */
  method GenerateSalesDetailsCsv(sales: seq<SaleRecord>, cutoff: Date, products: map<ObjectId, Product>, now: Date,
                                 formatDate: Date -> string, formatPrice: Money -> string) returns (csv: string)
    ensures csv == SALES_HEADER + SalesRows(FilteredSales(sales, cutoff, now), products, now, formatDate, formatPrice)
  {
    var window := FilteredSales(sales, cutoff, now);
    csv := SALES_HEADER;
    var i := 0;
    while i < |window|
      invariant 0 <= i <= |window|
      invariant csv == SALES_HEADER + SalesRows(window[..i], products, now, formatDate, formatPrice)
    {
      var line := SalesLine(window[i], products, now, formatDate, formatPrice);
      assert window[..i + 1][..i] == window[..i];
      AppendAssociative(SALES_HEADER, SalesRows(window[..i], products, now, formatDate, formatPrice), line);
      csv := csv + line;
      i := i + 1;
    }
    assert window[..|window|] == window;
  }

  /** `generateInventoryDetailsCSV()`: the header, then one line per product of the listing, in order. */
  method GenerateInventoryDetailsCsv(listing: seq<ObjectId>, products: map<ObjectId, Product>, describePrice: Money -> string)
    returns (csv: string)
    requires forall id <- listing :: id in products
    ensures csv == INVENTORY_HEADER + InventoryRows(listing, products, describePrice)
  {
    csv := INVENTORY_HEADER;
    var i := 0;
    while i < |listing|
      invariant 0 <= i <= |listing|
      invariant csv == INVENTORY_HEADER + InventoryRows(listing[..i], products, describePrice)
    {
      var line := InventoryLine(products[listing[i]], describePrice);
      assert listing[..i + 1][..i] == listing[..i];
      AppendAssociative(INVENTORY_HEADER, InventoryRows(listing[..i], products, describePrice), line);
      csv := csv + line;
      i := i + 1;
    }
    assert listing[..|listing|] == listing;
  }

  /** The file name and contents `exportCSV()` writes for the selected chart. */
  method ExportCsv(chart: ChartType, sales: seq<SaleRecord>, cutoff: Date, listing: seq<ObjectId>, products: map<ObjectId, Product>, now: Date,
                   formatDate: Date -> string, formatPrice: Money -> string, describePrice: Money -> string)
    returns (fileName: string, csv: string)
    requires forall id <- listing :: id in products
    ensures chart == SalesTrend ==>
      fileName == "SalesDetails.csv"
        && csv == SALES_HEADER + SalesRows(FilteredSales(sales, cutoff, now), products, now, formatDate, formatPrice)
    ensures chart == InventoryStatus ==>
      fileName == "InventoryDetails.csv" && csv == INVENTORY_HEADER + InventoryRows(listing, products, describePrice)
  {
    if chart == SalesTrend {
      csv := GenerateSalesDetailsCsv(sales, cutoff, products, now, formatDate, formatPrice);
      fileName := "SalesDetails.csv";
    } else {
      csv := GenerateInventoryDetailsCsv(listing, products, describePrice);
      fileName := "InventoryDetails.csv";
    }
  }

  /** Numbers print with digits and a sign only, so they never add a comma or a line break. */
  lemma IntTextPlain(n: int)
    ensures Count(',', IntText(n)) == 0 && Count('\n', IntText(n)) == 0
  {
    CountAbsent(',', IntText(n));
    CountAbsent('\n', IntText(n));
  }

  /**
   * A sales line has three separators plus every comma inside its date,
   * name and price texts, and one line break plus every break inside them:
   * without quoting, a comma in a product name adds a field.
   */
  lemma SalesLineSeparators(sale: SaleRecord, products: map<ObjectId, Product>, now: Date,
                            formatDate: Date -> string, formatPrice: Money -> string, c: char)
    requires c == ',' || c == '\n'
    ensures var date := formatDate(sale.date.GetOr(now));
      var name := ProductNameOf(products, sale.product).GetOr("");
      var price := formatPrice(sale.totalPrice);
      Count(c, SalesLine(sale, products, now, formatDate, formatPrice))
        == (if c == ',' then 3 else 1) + Count(c, date) + Count(c, name) + Count(c, price)
  {
    var date := formatDate(sale.date.GetOr(now));
    var name := ProductNameOf(products, sale.product).GetOr("");
    var qty := IntText(sale.quantity);
    var price := formatPrice(sale.totalPrice);
    IntTextPlain(sale.quantity);
    CountConcat(c, date, ",");
    CountConcat(c, date + ",", name);
    CountConcat(c, date + "," + name, ",");
    CountConcat(c, date + "," + name + ",", qty);
    CountConcat(c, date + "," + name + "," + qty, ",");
    CountConcat(c, date + "," + name + "," + qty + ",", price);
    CountConcat(c, date + "," + name + "," + qty + "," + price, "\n");
  }

  /** The same for an inventory line: four separators plus the commas in the name and price texts. */
  lemma InventoryLineSeparators(p: Product, describePrice: Money -> string, c: char)
    requires c == ',' || c == '\n'
    ensures var name := p.name.GetOr("");
      Count(c, InventoryLine(p, describePrice))
        == (if c == ',' then 4 else 1) + Count(c, name)
          + Count(c, describePrice(p.purchasePrice)) + Count(c, describePrice(p.sellingPrice))
  {
    var name := p.name.GetOr("");
    var q := IntText(p.quantity);
    var pp := describePrice(p.purchasePrice);
    var sp := describePrice(p.sellingPrice);
    var t := IntText(p.lowStockThreshold);
    IntTextPlain(p.quantity);
    IntTextPlain(p.lowStockThreshold);
    CountConcat(c, name, ",");
    CountConcat(c, name + ",", q);
    CountConcat(c, name + "," + q, ",");
    CountConcat(c, name + "," + q + ",", pp);
    CountConcat(c, name + "," + q + "," + pp, ",");
    CountConcat(c, name + "," + q + "," + pp + ",", sp);
    CountConcat(c, name + "," + q + "," + pp + "," + sp, ",");
    CountConcat(c, name + "," + q + "," + pp + "," + sp + ",", t);
    CountConcat(c, name + "," + q + "," + pp + "," + sp + "," + t, "\n");
  }

  /**
   * A sale of a product whose name holds one comma (such as "Rice, Jasmine")
   * exports a line with four commas, one more than the three of the
   * four-field header.
   */
  lemma CommaInNameAddsField(sale: SaleRecord, products: map<ObjectId, Product>, now: Date,
                             formatDate: Date -> string, formatPrice: Money -> string)
    requires sale.product.Some? && sale.product.value in products
    requires var name := products[sale.product.value].name; name.Some? && Count(',', name.value) == 1
    requires Count(',', formatDate(sale.date.GetOr(now))) == 0 && Count(',', formatPrice(sale.totalPrice)) == 0
    ensures Count(',', SalesLine(sale, products, now, formatDate, formatPrice)) == 4
  {
    SalesLineSeparators(sale, products, now, formatDate, formatPrice, ',');
  }

  /** Texts a sales line is built from that hold no line break. */
  predicate SalesFieldsOneLine(sales: seq<SaleRecord>, products: map<ObjectId, Product>, now: Date,
                               formatDate: Date -> string, formatPrice: Money -> string)
  {
    forall i :: 0 <= i < |sales| ==>
      && Count('\n', formatDate(sales[i].date.GetOr(now))) == 0
      && Count('\n', ProductNameOf(products, sales[i].product).GetOr("")) == 0
      && Count('\n', formatPrice(sales[i].totalPrice)) == 0
  }

  /** With no line break inside any field, the sales export has the header line and one line per sale. */
  lemma {:induction false} SalesCsvLineCount(sales: seq<SaleRecord>, products: map<ObjectId, Product>, now: Date,
                                             formatDate: Date -> string, formatPrice: Money -> string)
    requires SalesFieldsOneLine(sales, products, now, formatDate, formatPrice)
    ensures Count('\n', SalesRows(sales, products, now, formatDate, formatPrice)) == |sales|
  {
    if sales != [] {
      var init := sales[..|sales| - 1];
      var last := sales[|sales| - 1];
      assert SalesFieldsOneLine(init, products, now, formatDate, formatPrice) by {
        forall i | 0 <= i < |init| ensures init[i] == sales[i] { }
      }
      SalesCsvLineCount(init, products, now, formatDate, formatPrice);
      CountConcat('\n', SalesRows(init, products, now, formatDate, formatPrice), SalesLine(last, products, now, formatDate, formatPrice));
      SalesLineSeparators(last, products, now, formatDate, formatPrice, '\n');
    }
  }

  /** Texts an inventory line is built from that hold no line break. */
  predicate InventoryFieldsOneLine(listing: seq<ObjectId>, products: map<ObjectId, Product>, describePrice: Money -> string)
    requires forall id <- listing :: id in products
  {
    forall i :: 0 <= i < |listing| ==>
      && Count('\n', products[listing[i]].name.GetOr("")) == 0
      && Count('\n', describePrice(products[listing[i]].purchasePrice)) == 0
      && Count('\n', describePrice(products[listing[i]].sellingPrice)) == 0
  }

  /** With no line break inside any field, the inventory export has the header line and one line per product. */
  lemma {:induction false} InventoryCsvLineCount(listing: seq<ObjectId>, products: map<ObjectId, Product>, describePrice: Money -> string)
    requires forall id <- listing :: id in products
    requires InventoryFieldsOneLine(listing, products, describePrice)
    ensures Count('\n', InventoryRows(listing, products, describePrice)) == |listing|
  {
    if listing != [] {
      var init := listing[..|listing| - 1];
      var last := listing[|listing| - 1];
      assert forall id <- init :: id in products;
      assert InventoryFieldsOneLine(init, products, describePrice) by {
        forall i | 0 <= i < |init| ensures init[i] == listing[i] { }
      }
      InventoryCsvLineCount(init, products, describePrice);
      CountConcat('\n', InventoryRows(init, products, describePrice), InventoryLine(products[last], describePrice));
      InventoryLineSeparators(products[last], describePrice, '\n');
    }
  }
}
