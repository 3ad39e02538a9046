/** `getDashboardStats` (src/lib/dashboard.ts): the stock figures of
    `DashboardStock` together with the sales, revenue and expense figures.
    The rows of every query are inputs; a failed query is not modelled, and
    the movements query, whose error is only logged, reads as no rows. The clock enters as the few instants and day numbers the function
    compares against. */
module Dashboard {
  import opened Wrappers
  import opened Seqs
  import opened Text
  import opened Domain
  import opened Grouping
  import Ingredients
  import opened DashboardStock

  /** The moments `getDashboardStats` compares against: today's day number,
      the instant thirty days before now, and the first day of the month as
      an instant and as a day number. */
  datatype Clock = Clock(today: int, thirtyDaysAgo: int, monthStart: int, monthStartDay: int)

  // -----------------------------------------------------------------------
  // Recipe sales
  // -----------------------------------------------------------------------

  /** A row of `recipe_sales` with the name of its recipe when the join
      found one. Money is in cents. `soldAt` is the instant of `sold_at`,
      `soldDate` its day `YYYY-MM-DD` in UTC and `soldDay` the day number
      of its local date. */
  datatype Sale = Sale(
    recipeId: string,
    recipeName: Option<string>,
    quantity: Option<int>,
    price: Option<int>,
    soldAt: int,
    soldDate: string,
    soldDay: int)

  /** `sale.quantity || 1`: a missing or zero quantity counts as one. */
  function QuantityOr1(sale: Sale): (q: int)
    ensures q != 0
    ensures sale.quantity.Some? && sale.quantity.value != 0 ==> q == sale.quantity.value
    ensures sale.quantity.None? || sale.quantity.value == 0 ==> q == 1
  {
    if sale.quantity.Some? && sale.quantity.value != 0 then sale.quantity.value else 1
  }

  /** What one sale brings in. */
  function SaleRevenue(sale: Sale): int
  {
    OrZero(sale.price) * QuantityOr1(sale)
  }

  function SaleRevenueFn(): Sale -> int
  {
    (sale: Sale) => SaleRevenue(sale)
  }

  function SaleQuantityFn(): Sale -> int
  {
    (sale: Sale) => QuantityOr1(sale)
  }

  function SaleDateKey(): Sale -> string
  {
    (sale: Sale) => sale.soldDate
  }

  function RecipeKey(): Sale -> string
  {
    (sale: Sale) => sale.recipeId
  }

  /** `saleDate >= thirtyDaysAgo` */
  function InWindowFn(thirtyDaysAgo: int): Sale -> bool
  {
    (sale: Sale) => sale.soldAt >= thirtyDaysAgo
  }

  /** The sales of the last thirty days. */
  function InWindow(sales: seq<Sale>, thirtyDaysAgo: int): seq<Sale>
  {
    Filter(sales, InWindowFn(thirtyDaysAgo))
  }

  /** One entry of `revenueLast30Days`. */
  datatype DayRevenue = DayRevenue(date: string, revenue: int, sales: int)

  /** One entry of `topSellingRecipes`. */
  datatype RecipeSales = RecipeSales(recipeId: string, recipeName: string, sales: int, revenue: int)

  const UnknownRecipe := "Receita desconhecida"

  function DayRevenueFor(recent: seq<Sale>): string -> DayRevenue
  {
    (d: string) => DayRevenue(d, KeySum(recent, SaleDateKey(), d, SaleRevenueFn()), KeySum(recent, SaleDateKey(), d, SaleQuantityFn()))
  }

  function DayRevenueFn(): DayRevenue -> int
  {
    (e: DayRevenue) => e.revenue
  }

  function DaySalesFn(): DayRevenue -> int
  {
    (e: DayRevenue) => e.sales
  }

  /** The entries of `revenueByDate`, in order of first occurrence. */
  function RevenueByDateOf(sales: seq<Sale>, thirtyDaysAgo: int): seq<DayRevenue>
  {
    var recent := InWindow(sales, thirtyDaysAgo);
    Map(Keys(recent, SaleDateKey()), DayRevenueFor(recent))
  }

  /** `a.date.localeCompare(b.date) < 0` */
  predicate EarlierRevenueDay(a: DayRevenue, b: DayRevenue)
  {
    StringLess(a.date, b.date)
  }

  lemma EarlierRevenueDayIsStrictWeakOrder()
    ensures StrictWeakOrder(EarlierRevenueDay)
  {
    StringLessStrictTotal();
  }

  /** `revenueLast30Days`: the revenue and sales of each day of the last
      thirty days, sorted by day. */
  function RevenueLast30DaysOf(sales: seq<Sale>, thirtyDaysAgo: int): seq<DayRevenue>
  {
    EarlierRevenueDayIsStrictWeakOrder();
    SortBy(RevenueByDateOf(sales, thirtyDaysAgo), EarlierRevenueDay)
  }

  /** The name an entry keeps: the one of the first sale of its recipe. */
  function RecipeName(sales: seq<Sale>, id: string): string
  {
    match FirstWithKey(sales, RecipeKey(), id)
    case Some(sale) => TextOr(sale.recipeName, UnknownRecipe)
    case None => UnknownRecipe
  }

  function RecipeRowFor(sales: seq<Sale>): string -> RecipeSales
  {
    (id: string) => RecipeSales(id, RecipeName(sales, id), KeySum(sales, RecipeKey(), id, SaleQuantityFn()), KeySum(sales, RecipeKey(), id, SaleRevenueFn()))
  }

  function RecipeRevenueFn(): RecipeSales -> int
  {
    (e: RecipeSales) => e.revenue
  }

  function RecipeSalesFn(): RecipeSales -> int
  {
    (e: RecipeSales) => e.sales
  }

  /** The values of `recipeSalesMap`, in order of first occurrence. */
  function RecipeSalesOf(sales: seq<Sale>): seq<RecipeSales>
  {
    Map(Keys(sales, RecipeKey()), RecipeRowFor(sales))
  }

  /** `b.revenue - a.revenue < 0` */
  predicate MoreRevenue(a: RecipeSales, b: RecipeSales)
  {
    a.revenue > b.revenue
  }

  lemma MoreRevenueIsStrictWeakOrder()
    ensures StrictWeakOrder(MoreRevenue)
  {
  }

  /** `topSellingRecipes`: the recipes by decreasing revenue, the first
      ten. */
  function TopSellingOf(sales: seq<Sale>): seq<RecipeSales>
  {
    MoreRevenueIsStrictWeakOrder();
    Take(SortBy(RecipeSalesOf(sales), MoreRevenue), TopCount)
  }

  /** `revenueByDate` holds, for the days `dates` of the sales `recent`
      in insertion order, each day's revenue and sales. */
  ghost predicate DayBuckets(recent: seq<Sale>, dates: seq<string>, revenueByDate: map<string, (int, int)>)
  {
    dates == Keys(recent, SaleDateKey()) &&
    (forall d :: d in revenueByDate <==> d in dates) &&
    forall d :: d in revenueByDate ==>
      revenueByDate[d] == (KeySum(recent, SaleDateKey(), d, SaleRevenueFn()), KeySum(recent, SaleDateKey(), d, SaleQuantityFn()))
  }

  /** `recipeSalesMap` holds, for the recipes `recipeIds` of `sales` in
      insertion order, each recipe's first name, sales and revenue. */
  ghost predicate RecipeBuckets(sales: seq<Sale>, recipeIds: seq<string>, recipeSalesMap: map<string, (string, int, int)>)
  {
    recipeIds == Keys(sales, RecipeKey()) &&
    (forall id :: id in recipeSalesMap <==> id in recipeIds) &&
    forall id :: id in recipeSalesMap ==>
      recipeSalesMap[id] == (RecipeName(sales, id), KeySum(sales, RecipeKey(), id, SaleQuantityFn()), KeySum(sales, RecipeKey(), id, SaleRevenueFn()))
  }

  /** The loop over the sales: the two totals, `revenueByDate` for the
      sales of the last thirty days and `recipeSalesMap` for all of them. */
  method AccumulateSales(sales: seq<Sale>, thirtyDaysAgo: int)
    returns (totalRevenue: int, totalSales: int,
             dates: seq<string>, revenueByDate: map<string, (int, int)>,
             recipeIds: seq<string>, recipeSalesMap: map<string, (string, int, int)>)
    ensures totalRevenue == SumOfInt(sales, SaleRevenueFn())
    ensures totalSales == SumOfInt(sales, SaleQuantityFn())
    ensures DayBuckets(InWindow(sales, thirtyDaysAgo), dates, revenueByDate)
    ensures RecipeBuckets(sales, recipeIds, recipeSalesMap)
  {
    totalRevenue, totalSales := 0, 0;
    dates, revenueByDate := [], map[];
    recipeIds, recipeSalesMap := [], map[];
    for i := 0 to |sales|
      invariant SalesTable(sales[..i], thirtyDaysAgo, totalRevenue, totalSales, dates, revenueByDate, recipeIds, recipeSalesMap)
    {
      totalRevenue, totalSales, dates, revenueByDate, recipeIds, recipeSalesMap :=
        AddSale(sales[..i], thirtyDaysAgo, sales[i], totalRevenue, totalSales, dates, revenueByDate, recipeIds, recipeSalesMap);
      PrefixSnoc(sales, i);
    }
    assert sales[..|sales|] == sales;
  }

  /** What the loop over the sales holds after the sales `p`. */
  ghost predicate SalesTable(p: seq<Sale>, thirtyDaysAgo: int, totalRevenue: int, totalSales: int,
                             dates: seq<string>, revenueByDate: map<string, (int, int)>,
                             recipeIds: seq<string>, recipeSalesMap: map<string, (string, int, int)>)
  {
    totalRevenue == SumOfInt(p, SaleRevenueFn()) &&
    totalSales == SumOfInt(p, SaleQuantityFn()) &&
    DayBuckets(InWindow(p, thirtyDaysAgo), dates, revenueByDate) &&
    RecipeBuckets(p, recipeIds, recipeSalesMap)
  }

  /** One turn of the loop over the sales. */
  method AddSale(ghost p: seq<Sale>, thirtyDaysAgo: int, sale: Sale, totalRevenue: int, totalSales: int,
                 dates: seq<string>, revenueByDate: map<string, (int, int)>,
                 recipeIds: seq<string>, recipeSalesMap: map<string, (string, int, int)>)
    returns (totalRevenue': int, totalSales': int,
             dates': seq<string>, revenueByDate': map<string, (int, int)>,
             recipeIds': seq<string>, recipeSalesMap': map<string, (string, int, int)>)
    requires SalesTable(p, thirtyDaysAgo, totalRevenue, totalSales, dates, revenueByDate, recipeIds, recipeSalesMap)
    ensures SalesTable(p + [sale], thirtyDaysAgo, totalRevenue', totalSales', dates', revenueByDate', recipeIds', recipeSalesMap')
  {
    assert SumOfInt(p + [sale], SaleRevenueFn()) == totalRevenue + OrZero(sale.price) * QuantityOr1(sale) by {
      assert (p + [sale])[..|p|] == p;
    }
    assert SumOfInt(p + [sale], SaleQuantityFn()) == totalSales + QuantityOr1(sale) by {
      assert (p + [sale])[..|p|] == p;
    }
    var salePrice := OrZero(sale.price);
    var saleQuantity := QuantityOr1(sale);
    var revenue := salePrice * saleQuantity;
    totalRevenue' := totalRevenue + revenue;
    totalSales' := totalSales + saleQuantity;
    dates', revenueByDate' := dates, revenueByDate;
    if sale.soldAt >= thirtyDaysAgo {
      assert InWindow(p + [sale], thirtyDaysAgo) == InWindow(p, thirtyDaysAgo) + [sale] by {
        FilterSnoc(p, sale, InWindowFn(thirtyDaysAgo));
      }
      dates', revenueByDate' := AddToDay(InWindow(p, thirtyDaysAgo), sale, dates, revenueByDate);
    } else {
      assert InWindow(p + [sale], thirtyDaysAgo) == InWindow(p, thirtyDaysAgo) by {
        FilterSnoc(p, sale, InWindowFn(thirtyDaysAgo));
      }
    }
    recipeIds', recipeSalesMap' := AddToRecipe(p, sale, recipeIds, recipeSalesMap);
  }

  /** The update of `revenueByDate` for one sale of the last thirty days. */
  method AddToDay(ghost recent: seq<Sale>, sale: Sale, dates: seq<string>, revenueByDate: map<string, (int, int)>)
    returns (dates': seq<string>, revenueByDate': map<string, (int, int)>)
    requires DayBuckets(recent, dates, revenueByDate)
    ensures DayBuckets(recent + [sale], dates', revenueByDate')
  {
    var dateStr := sale.soldDate;
    var current := (0, 0);
    dates' := dates;
    if dateStr in revenueByDate {
      current := revenueByDate[dateStr];
    } else {
      KeySumAbsent(recent, SaleDateKey(), dateStr, SaleRevenueFn());
      KeySumAbsent(recent, SaleDateKey(), dateStr, SaleQuantityFn());
      dates' := dates + [dateStr];
    }
    revenueByDate' := revenueByDate[dateStr := (current.0 + OrZero(sale.price) * QuantityOr1(sale), current.1 + QuantityOr1(sale))];
    forall d | d in revenueByDate'
      ensures revenueByDate'[d] == (KeySum(recent + [sale], SaleDateKey(), d, SaleRevenueFn()), KeySum(recent + [sale], SaleDateKey(), d, SaleQuantityFn()))
    {
      KeySumSnoc(recent, sale, SaleDateKey(), d, SaleRevenueFn());
      KeySumSnoc(recent, sale, SaleDateKey(), d, SaleQuantityFn());
    }
    KeysSnoc(recent, sale, SaleDateKey());
  }

  /** The update of `recipeSalesMap` for one sale: a new recipe enters with
      the name of this sale, a known one keeps its name. */
  method AddToRecipe(ghost p: seq<Sale>, sale: Sale, recipeIds: seq<string>, recipeSalesMap: map<string, (string, int, int)>)
    returns (recipeIds': seq<string>, recipeSalesMap': map<string, (string, int, int)>)
    requires RecipeBuckets(p, recipeIds, recipeSalesMap)
    ensures RecipeBuckets(p + [sale], recipeIds', recipeSalesMap')
  {
    var recipeId := sale.recipeId;
    var recipeName := TextOr(sale.recipeName, UnknownRecipe);
    var current := (recipeName, 0, 0);
    recipeIds' := recipeIds;
    if recipeId in recipeSalesMap {
      current := recipeSalesMap[recipeId];
    } else {
      recipeIds' := recipeIds + [recipeId];
    }
    recipeSalesMap' := recipeSalesMap[recipeId := (current.0, current.1 + QuantityOr1(sale), current.2 + OrZero(sale.price) * QuantityOr1(sale))];
    forall id | id in recipeSalesMap'
      ensures recipeSalesMap'[id] == (RecipeName(p + [sale], id), KeySum(p + [sale], RecipeKey(), id, SaleQuantityFn()), KeySum(p + [sale], RecipeKey(), id, SaleRevenueFn()))
    {
      KeySumSnoc(p, sale, RecipeKey(), id, SaleQuantityFn());
      KeySumSnoc(p, sale, RecipeKey(), id, SaleRevenueFn());
      FirstWithKeySnoc(p, sale, RecipeKey(), id);
      FirstWithKeyPresent(p, RecipeKey(), id);
      if id !in recipeSalesMap {
        KeySumAbsent(p, RecipeKey(), id, SaleQuantityFn());
        KeySumAbsent(p, RecipeKey(), id, SaleRevenueFn());
      }
    }
    KeysSnoc(p, sale, RecipeKey());
  }

  /** The sales part of `getDashboardStats`: the loop, then the day entries
      sorted by day and the ten recipes with the most revenue. */
  method SalesFigures(sales: seq<Sale>, thirtyDaysAgo: int)
    returns (totalRevenue: int, totalSales: int, revenueLast30Days: seq<DayRevenue>, topSellingRecipes: seq<RecipeSales>)
    ensures totalRevenue == SumOfInt(sales, SaleRevenueFn())
    ensures totalSales == SumOfInt(sales, SaleQuantityFn())
    ensures revenueLast30Days == RevenueLast30DaysOf(sales, thirtyDaysAgo)
    ensures topSellingRecipes == TopSellingOf(sales)
  {
    var dates, revenueByDate, recipeIds, recipeSalesMap;
    totalRevenue, totalSales, dates, revenueByDate, recipeIds, recipeSalesMap := AccumulateSales(sales, thirtyDaysAgo);
    var days := seq(|dates|, k requires 0 <= k < |dates| =>
      DayRevenue(dates[k], revenueByDate[dates[k]].0, revenueByDate[dates[k]].1));
    assert days == RevenueByDateOf(sales, thirtyDaysAgo);
    EarlierRevenueDayIsStrictWeakOrder();
    revenueLast30Days := SortBy(days, EarlierRevenueDay);
    var recipes := seq(|recipeIds|, k requires 0 <= k < |recipeIds| =>
      RecipeSales(recipeIds[k], recipeSalesMap[recipeIds[k]].0, recipeSalesMap[recipeIds[k]].1, recipeSalesMap[recipeIds[k]].2));
    assert recipes == RecipeSalesOf(sales);
    MoreRevenueIsStrictWeakOrder();
    topSellingRecipes := Take(SortBy(recipes, MoreRevenue), TopCount);
  }

  /** The day entries add up to the revenue and the sales of the last
      thirty days, and are in strictly ascending day order. */
  lemma RevenueLast30DaysSound(sales: seq<Sale>, thirtyDaysAgo: int)
    ensures var r := RevenueLast30DaysOf(sales, thirtyDaysAgo);
      var recent := InWindow(sales, thirtyDaysAgo);
      SumOfInt(r, DayRevenueFn()) == SumOfInt(recent, SaleRevenueFn()) &&
      SumOfInt(r, DaySalesFn()) == SumOfInt(recent, SaleQuantityFn()) &&
      forall i, j :: 0 <= i < j < |r| ==> StringLess(r[i].date, r[j].date)
  {
    var recent := InWindow(sales, thirtyDaysAgo);
    var ks := Keys(recent, SaleDateKey());
    var rows := RevenueByDateOf(sales, thirtyDaysAgo);
    var r := RevenueLast30DaysOf(sales, thirtyDaysAgo);
    RowsSum(ks, recent, SaleDateKey(), SaleRevenueFn(), DayRevenueFor(recent), DayRevenueFn());
    RowsSum(ks, recent, SaleDateKey(), SaleQuantityFn(), DayRevenueFor(recent), DaySalesFn());
    KeysSumTotal(recent, SaleDateKey(), SaleRevenueFn());
    KeysSumTotal(recent, SaleDateKey(), SaleQuantityFn());
    SumOfIntPermutation(rows, r, DayRevenueFn());
    SumOfIntPermutation(rows, r, DaySalesFn());
    assert NoDuplicates(rows) by {
      forall i, j | 0 <= i < j < |rows| ensures rows[i] != rows[j] {
        assert rows[i].date == ks[i] && rows[j].date == ks[j];
      }
    }
    NoDuplicatesPermutation(rows, r);
    StringLessStrictTotal();
    forall i, j | 0 <= i < j < |r| ensures StringLess(r[i].date, r[j].date) {
      assert r[i] in multiset(rows) && r[j] in multiset(rows);
      assert r[i] == DayRevenueFor(recent)(r[i].date) && r[j] == DayRevenueFor(recent)(r[j].date);
    }
  }

  /** Every recipe entry before the cut adds up to the totals: no sale is
      lost or counted twice by the grouping. */
  lemma RecipeSalesAddUp(sales: seq<Sale>)
    ensures SumOfInt(RecipeSalesOf(sales), RecipeRevenueFn()) == SumOfInt(sales, SaleRevenueFn())
    ensures SumOfInt(RecipeSalesOf(sales), RecipeSalesFn()) == SumOfInt(sales, SaleQuantityFn())
  {
    var ks := Keys(sales, RecipeKey());
    RowsSum(ks, sales, RecipeKey(), SaleRevenueFn(), RecipeRowFor(sales), RecipeRevenueFn());
    RowsSum(ks, sales, RecipeKey(), SaleQuantityFn(), RecipeRowFor(sales), RecipeSalesFn());
    KeysSumTotal(sales, RecipeKey(), SaleRevenueFn());
    KeysSumTotal(sales, RecipeKey(), SaleQuantityFn());
  }

  /** The top list holds at most ten recipes, by decreasing revenue, and a
      recipe left out brought in no more than any listed one. */
  lemma TopSellingRanked(sales: seq<Sale>)
    ensures var t := TopSellingOf(sales);
      |t| <= TopCount &&
      (forall i, j :: 0 <= i < j < |t| ==> t[i].revenue >= t[j].revenue) &&
      (forall u, v :: u in RecipeSalesOf(sales) && u !in t && v in t ==> u.revenue <= v.revenue)
  {
    MoreRevenueIsStrictWeakOrder();
    var sorted := SortBy(RecipeSalesOf(sales), MoreRevenue);
    var t := TopSellingOf(sales);
    assert forall k :: 0 <= k < |t| ==> t[k] == sorted[k];
    forall u, v | u in RecipeSalesOf(sales) && u !in t && v in t
      ensures u.revenue <= v.revenue
    {
      assert u in multiset(sorted);
      TakeSortedDominates(sorted, MoreRevenue, TopCount, u, v);
    }
  }

  /** With no negative quantity, every sale counts at least once in
      `totalSales`. */
  lemma TotalSalesCountsEverySale(sales: seq<Sale>)
    requires forall sale :: sale in sales && sale.quantity.Some? ==> sale.quantity.value >= 0
    ensures SumOfInt(sales, SaleQuantityFn()) >= |sales|
  {
    SumOfIntLowerBound(sales, SaleQuantityFn(), 1);
  }

  // -----------------------------------------------------------------------
  // Expenses and revenue transactions
  // -----------------------------------------------------------------------

  /** A row of `financial_transactions` as the dashboard reads it: the
      amount in cents, the instant of `transaction_date` and the day number
      of its local date, both `None` when the date is invalid. */
  datatype Entry = Entry(amount: Option<int>, at: Option<int>, day: Option<int>)

  /** `exp.amount || 0` */
  function AmountOr0Fn(): Entry -> int
  {
    (e: Entry) => OrZero(e.amount)
  }

  /** `new Date(exp.transaction_date) >= firstDayOfMonth` */
  function SinceInstantFn(monthStart: int): Entry -> bool
  {
    (e: Entry) => e.at.Some? && e.at.value >= monthStart
  }

  /** The same test after `setHours(0, 0, 0, 0)`: the day is in this month. */
  function SinceDayFn(monthStartDay: int): Entry -> bool
  {
    (e: Entry) => e.day.Some? && e.day.value >= monthStartDay
  }

  /** The sale's day is in this month. */
  function SaleThisMonthFn(monthStartDay: int): Sale -> bool
  {
    (sale: Sale) => sale.soldDay >= monthStartDay
  }

  // -----------------------------------------------------------------------
  // The statistics
  // -----------------------------------------------------------------------

  datatype DashboardStats = DashboardStats(
    totalIngredients: nat,
    totalCategories: nat,
    lowStockCount: nat,
    expiringSoonCount: nat,
    expiredCount: nat,
    stockByCategory: seq<CategoryStock>,
    topUsedIngredients: seq<IngredientUsage>,
    movementsLast30Days: seq<DayCount>,
    expiringNext7Days: seq<Ingredient>,
    totalRevenue: int,
    totalSales: int,
    revenueLast30Days: seq<DayRevenue>,
    topSellingRecipes: seq<RecipeSales>,
    totalExpenses: int,
    monthlyExpenses: int,
    monthlyRevenue: int,
    monthlySales: int)

  function CategoryOf(): Ingredient -> Option<string>
  {
    (ing: Ingredient) => ing.category
  }

  /** The statistics of the dashboard. `usage` are the sale movements of
      the last thirty days, `movementDays` the days of all movements of the
      last thirty days; `sales`, `expenses` and `revenues` are the rows of
      their queries. */
  function DashboardStatsOf(
    allIngredients: seq<Ingredient>, usage: seq<UsageMovement>, movementDays: seq<string>,
    sales: seq<Sale>, expenses: seq<Entry>, revenues: seq<Entry>, clock: Clock): DashboardStats
  {
    var salesRevenue := SumOfInt(sales, SaleRevenueFn());
    var salesThisMonth := Filter(sales, SaleThisMonthFn(clock.monthStartDay));
    DashboardStats(
      |allIngredients|,
      |Ingredients.GetCategories(Map(allIngredients, CategoryOf()))|,
      Count(allIngredients, Ingredients.IsLowStockRow()),
      Count(allIngredients, ExpiringSoonFn(clock.today)),
      Count(allIngredients, ExpiredFn(clock.today)),
      StockByCategoryOf(allIngredients),
      TopUsedOf(usage),
      MovementsLast30DaysOf(movementDays),
      Filter(allIngredients, WithinWeekFn(clock.today)),
      if |revenues| > 0 then
        var fromTransactions := SumOfInt(revenues, AmountOr0Fn());
        if salesRevenue >= fromTransactions then salesRevenue else fromTransactions
      else salesRevenue,
      SumOfInt(sales, SaleQuantityFn()),
      RevenueLast30DaysOf(sales, clock.thirtyDaysAgo),
      TopSellingOf(sales),
      SumOfInt(expenses, AmountOr0Fn()),
      SumOfInt(Filter(expenses, SinceInstantFn(clock.monthStart)), AmountOr0Fn()),
      if |revenues| > 0 then SumOfInt(Filter(revenues, SinceDayFn(clock.monthStartDay)), AmountOr0Fn())
      else SumOfInt(salesThisMonth, SaleRevenueFn()),
      SumOfInt(salesThisMonth, SaleQuantityFn()))
  }

  /** `getDashboardStats` once its queries have returned. */
  method GetDashboardStats(
    allIngredients: seq<Ingredient>, usage: seq<UsageMovement>, movementDays: seq<string>,
    sales: seq<Sale>, expenses: seq<Entry>, revenues: seq<Entry>, clock: Clock)
    returns (stats: DashboardStats)
    ensures stats == DashboardStatsOf(allIngredients, usage, movementDays, sales, expenses, revenues, clock)
  {
    var totalIngredients := |allIngredients|;
    var totalCategories := |Ingredients.GetCategories(Map(allIngredients, CategoryOf()))|;
    var lowStockCount, expiringSoonCount, expiredCount, expiringNext7Days := CountAlerts(allIngredients, clock.today);
    var stockByCategory := StockByCategory(allIngredients);
    var usageEntries := UsageByIngredient(usage);
    MoreUsedIsStrictWeakOrder();
    var topUsedIngredients := Take(SortBy(usageEntries, MoreUsed), TopCount);
    var movementsLast30Days := MovementsByDate(movementDays);
    var totalRevenue, totalSales, revenueLast30Days, topSellingRecipes := SalesFigures(sales, clock.thirtyDaysAgo);

    var totalExpenses := SumOfInt(expenses, AmountOr0Fn());
    var monthlyExpenses := SumOfInt(Filter(expenses, SinceInstantFn(clock.monthStart)), AmountOr0Fn());

    var salesThisMonth := Filter(sales, SaleThisMonthFn(clock.monthStartDay));
    var monthlySales := SumOfInt(salesThisMonth, SaleQuantityFn());
    var monthlyRevenue;
    if |revenues| > 0 {
      var revenueFromTransactions := SumOfInt(revenues, AmountOr0Fn());
      if revenueFromTransactions > totalRevenue {
        totalRevenue := revenueFromTransactions;
      }
      monthlyRevenue := SumOfInt(Filter(revenues, SinceDayFn(clock.monthStartDay)), AmountOr0Fn());
    } else {
      monthlyRevenue := SumOfInt(salesThisMonth, SaleRevenueFn());
    }

    stats := DashboardStats(
      totalIngredients, totalCategories, lowStockCount, expiringSoonCount, expiredCount,
      stockByCategory, topUsedIngredients, movementsLast30Days, expiringNext7Days,
      totalRevenue, totalSales, revenueLast30Days, topSellingRecipes,
      totalExpenses, monthlyExpenses, monthlyRevenue, monthlySales);
  }

  /** With revenue transactions, the total revenue is the larger of the
      sales total and the transactions total; without them, the sales
      total, and the month's revenue comes from this month's sales. */
  lemma RevenueChoice(
    allIngredients: seq<Ingredient>, usage: seq<UsageMovement>, movementDays: seq<string>,
    sales: seq<Sale>, expenses: seq<Entry>, revenues: seq<Entry>, clock: Clock)
    ensures var s := DashboardStatsOf(allIngredients, usage, movementDays, sales, expenses, revenues, clock);
      var fromSales := SumOfInt(sales, SaleRevenueFn());
      var fromTransactions := SumOfInt(revenues, AmountOr0Fn());
      (|revenues| > 0 ==>
        s.totalRevenue >= fromSales && s.totalRevenue >= fromTransactions &&
        (s.totalRevenue == fromSales || s.totalRevenue == fromTransactions)) &&
      (|revenues| == 0 ==>
        s.totalRevenue == fromSales &&
        s.monthlyRevenue == SumOfInt(Filter(sales, SaleThisMonthFn(clock.monthStartDay)), SaleRevenueFn()))
  {
  }

  /** With no negative amount or quantity, the month's expenses and sales
      are at most the totals, and every sale counts at least once. */
  lemma MonthlyWithinTotals(
    allIngredients: seq<Ingredient>, usage: seq<UsageMovement>, movementDays: seq<string>,
    sales: seq<Sale>, expenses: seq<Entry>, revenues: seq<Entry>, clock: Clock)
    requires forall e :: e in expenses && e.amount.Some? ==> e.amount.value >= 0
    requires forall sale :: sale in sales && sale.quantity.Some? ==> sale.quantity.value >= 0
    ensures var s := DashboardStatsOf(allIngredients, usage, movementDays, sales, expenses, revenues, clock);
      s.monthlyExpenses <= s.totalExpenses && s.monthlySales <= s.totalSales && s.totalSales >= |sales|
  {
    SumOfIntFilterBound(expenses, SinceInstantFn(clock.monthStart), AmountOr0Fn());
    SumOfIntFilterBound(sales, SaleThisMonthFn(clock.monthStartDay), SaleQuantityFn());
    TotalSalesCountsEverySale(sales);
  }

  /** The alert counters of the statistics, and the stock counted by
      category, account for the ingredients. */
  lemma StockFiguresConsistent(
    allIngredients: seq<Ingredient>, usage: seq<UsageMovement>, movementDays: seq<string>,
    sales: seq<Sale>, expenses: seq<Entry>, revenues: seq<Entry>, clock: Clock)
    ensures var s := DashboardStatsOf(allIngredients, usage, movementDays, sales, expenses, revenues, clock);
      s.expiredCount + s.expiringSoonCount <= s.totalIngredients &&
      s.expiringSoonCount <= |s.expiringNext7Days| &&
      s.lowStockCount <= s.totalIngredients &&
      SumOfInt(s.stockByCategory, CategoryCountFn()) == s.totalIngredients &&
      s.totalCategories <= s.totalIngredients
  {
    AlertCounts(allIngredients, clock.today);
    StockByCategoryCounts(allIngredients);
  }
}
