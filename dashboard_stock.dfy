/** The stock half of `getDashboardStats` (src/lib/dashboard.ts): the alert
    counters, the stock per category, the most used ingredients and the
    movements per day. The rows the database returns are inputs; a failed
    query is not modelled. */
module DashboardStock {
  import opened Wrappers
  import opened Seqs
  import opened Text
  import opened Domain
  import opened Grouping
  import Ingredients

  // -----------------------------------------------------------------------
  // Alert counters
  // -----------------------------------------------------------------------

  /** Days ahead that count as "expiring soon", and the window of the
      "next seven days" list. */
  const SoonDays := 3
  const WeekDays := 7

  /** The expiry day has passed. Only dates with three dashed fields
      count; an invalid one compares false with everything. */
  predicate ExpiredOn(ing: Ingredient, today: int)
  {
    match DashedDaysUntil(ing.expiry, today)
    case Some(d) => d < 0
    case None => false
  }

  /** The expiry day is today or within `SoonDays` days. */
  predicate ExpiringSoonOn(ing: Ingredient, today: int)
  {
    match DashedDaysUntil(ing.expiry, today)
    case Some(d) => 0 <= d <= SoonDays
    case None => false
  }

  /** The expiry day is today or within `WeekDays` days. */
  predicate WithinWeekOn(ing: Ingredient, today: int)
  {
    match DashedDaysUntil(ing.expiry, today)
    case Some(d) => 0 <= d <= WeekDays
    case None => false
  }

  function ExpiredFn(today: int): Ingredient -> bool
  {
    (ing: Ingredient) => ExpiredOn(ing, today)
  }

  function ExpiringSoonFn(today: int): Ingredient -> bool
  {
    (ing: Ingredient) => ExpiringSoonOn(ing, today)
  }

  function WithinWeekFn(today: int): Ingredient -> bool
  {
    (ing: Ingredient) => WithinWeekOn(ing, today)
  }

  /** The counting loop: ingredients low on stock, expired and expiring
      soon, and the list of those expiring within the week, in order. */
  method CountAlerts(allIngredients: seq<Ingredient>, today: int)
    returns (lowStockCount: nat, expiringSoonCount: nat, expiredCount: nat, expiringNext7Days: seq<Ingredient>)
    ensures lowStockCount == Count(allIngredients, Ingredients.IsLowStockRow())
    ensures expiredCount == Count(allIngredients, ExpiredFn(today))
    ensures expiringSoonCount == Count(allIngredients, ExpiringSoonFn(today))
    ensures expiringNext7Days == Filter(allIngredients, WithinWeekFn(today))
  {
    lowStockCount, expiringSoonCount, expiredCount := 0, 0, 0;
    expiringNext7Days := [];
    for i := 0 to |allIngredients|
      invariant lowStockCount == Count(allIngredients[..i], Ingredients.IsLowStockRow())
      invariant expiredCount == Count(allIngredients[..i], ExpiredFn(today))
      invariant expiringSoonCount == Count(allIngredients[..i], ExpiringSoonFn(today))
      invariant expiringNext7Days == Filter(allIngredients[..i], WithinWeekFn(today))
    {
      var ing := allIngredients[i];
      CountPrefixStep(allIngredients, i, Ingredients.IsLowStockRow());
      CountPrefixStep(allIngredients, i, ExpiredFn(today));
      CountPrefixStep(allIngredients, i, ExpiringSoonFn(today));
      FilterPrefixStep(allIngredients, i, WithinWeekFn(today));
      if ing.quantity <= ing.minStock {
        lowStockCount := lowStockCount + 1;
      }
      if HasDate(ing.expiry) {
        if IsDashed(ing.expiry) {
          match ing.expiry.day {
            case Some(expiryDay) =>
              var daysDiff := expiryDay - today;
              if daysDiff < 0 {
                expiredCount := expiredCount + 1;
              } else if daysDiff <= SoonDays {
                expiringSoonCount := expiringSoonCount + 1;
              }
              if daysDiff >= 0 && daysDiff <= WeekDays {
                expiringNext7Days := expiringNext7Days + [ing];
              }
            case None =>
          }
        }
      }
    }
    assert allIngredients[..|allIngredients|] == allIngredients;
  }

  /** Expired and expiring soon exclude each other, so together they count
      at most every ingredient; every ingredient expiring soon is also in
      the seven-day list. */
  lemma AlertCounts(allIngredients: seq<Ingredient>, today: int)
    ensures Count(allIngredients, ExpiredFn(today)) + Count(allIngredients, ExpiringSoonFn(today)) <= |allIngredients|
    ensures Count(allIngredients, ExpiringSoonFn(today)) <= |Filter(allIngredients, WithinWeekFn(today))|
    ensures forall ing :: ing in allIngredients && ExpiringSoonOn(ing, today) ==>
      ing in Filter(allIngredients, WithinWeekFn(today))
  {
    CountDisjoint(allIngredients, ExpiredFn(today), ExpiringSoonFn(today));
    CountMonotone(allIngredients, ExpiringSoonFn(today), WithinWeekFn(today));
  }

  /** The dashboard agrees with the status badges of an ingredient on every
      date with three dashed fields, and counts no other date. */
  lemma AlertsAgreeWithBadges(ing: Ingredient, today: int)
    ensures ExpiredOn(ing, today) <==> IsDashed(ing.expiry) && Ingredients.IsExpired(ing, today)
    ensures ExpiringSoonOn(ing, today) <==> IsDashed(ing.expiry) && Ingredients.IsExpiringSoon(ing, today)
  {
  }

  // -----------------------------------------------------------------------
  // Stock by category
  // -----------------------------------------------------------------------

  /** The group of an ingredient without a category. */
  const NoCategory := "Sem categoria"

  /** `ing.category || 'Sem categoria'` */
  function CategoryKey(): Ingredient -> string
  {
    (ing: Ingredient) => TextOr(ing.category, NoCategory)
  }

  function QuantityFn(): Ingredient -> real
  {
    (ing: Ingredient) => ing.quantity
  }

  datatype CategoryStock = CategoryStock(category: string, count: int, totalQuantity: real)

  function CategoryCountFn(): CategoryStock -> int
  {
    (c: CategoryStock) => c.count
  }

  /** The entry of category `c`: its number of ingredients and their total
      quantity. */
  function CategoryRowFor(ings: seq<Ingredient>): string -> CategoryStock
  {
    (c: string) => CategoryStock(c, KeySum(ings, CategoryKey(), c, One()), KeySumReal(ings, CategoryKey(), c, QuantityFn()))
  }

  /** `stockByCategory`: one entry per category, in order of first
      occurrence. */
  function StockByCategoryOf(ings: seq<Ingredient>): seq<CategoryStock>
  {
    Map(Keys(ings, CategoryKey()), CategoryRowFor(ings))
  }

  /** `stockByCategory`: the entries of the map the loop fills. */
  method StockByCategory(allIngredients: seq<Ingredient>) returns (stockByCategory: seq<CategoryStock>)
    ensures stockByCategory == StockByCategoryOf(allIngredients)
  {
    var categories, stockByCategoryMap := CategoryTotals(allIngredients);
    stockByCategory := seq(|categories|, k requires 0 <= k < |categories| =>
      CategoryStock(categories[k], stockByCategoryMap[categories[k]].0, stockByCategoryMap[categories[k]].1));
    assert stockByCategory == Map(categories, CategoryRowFor(allIngredients));
  }

  /** The loop that fills `stockByCategoryMap`, with its keys in insertion
      order. */
  method CategoryTotals(allIngredients: seq<Ingredient>)
    returns (categories: seq<string>, stockByCategoryMap: map<string, (int, real)>)
    ensures categories == Keys(allIngredients, CategoryKey())
    ensures forall c :: c in stockByCategoryMap <==> c in categories
    ensures forall c :: c in stockByCategoryMap ==>
      stockByCategoryMap[c] == (KeySum(allIngredients, CategoryKey(), c, One()), KeySumReal(allIngredients, CategoryKey(), c, QuantityFn()))
  {
    categories, stockByCategoryMap := [], map[];
    for i := 0 to |allIngredients|
      invariant CategoryTable(allIngredients[..i], categories, stockByCategoryMap)
    {
      categories, stockByCategoryMap := AddToCategory(allIngredients[..i], allIngredients[i], categories, stockByCategoryMap);
      assert allIngredients[..i + 1] == allIngredients[..i] + [allIngredients[i]];
    }
    assert allIngredients[..|allIngredients|] == allIngredients;
  }

  /** The keys and entries of `stockByCategoryMap` after the ingredients
      `p`. */
  ghost predicate CategoryTable(p: seq<Ingredient>, categories: seq<string>, table: map<string, (int, real)>)
  {
    categories == Keys(p, CategoryKey()) &&
    (forall c :: c in table <==> c in categories) &&
    forall c :: c in table ==>
      table[c] == (KeySum(p, CategoryKey(), c, One()), KeySumReal(p, CategoryKey(), c, QuantityFn()))
  }

  /** One turn of the loop over the ingredients. */
  method AddToCategory(ghost p: seq<Ingredient>, ing: Ingredient, categories: seq<string>, table: map<string, (int, real)>)
    returns (categories': seq<string>, table': map<string, (int, real)>)
    requires CategoryTable(p, categories, table)
    ensures CategoryTable(p + [ing], categories', table')
  {
    var category := TextOr(ing.category, NoCategory);
    var current := (0, 0.0);
    categories' := categories;
    if category in table {
      current := table[category];
    } else {
      KeySumAbsent(p, CategoryKey(), category, One());
      KeySumRealAbsent(p, CategoryKey(), category, QuantityFn());
      categories' := categories + [category];
    }
    table' := table[category := (current.0 + 1, current.1 + ing.quantity)];
    CategoryStep(p, ing, table, table');
    KeysSnoc(p, ing, CategoryKey());
  }

  /** One step of the loop keeps every entry equal to its category's
      count and total. */
  lemma CategoryStep(p: seq<Ingredient>, ing: Ingredient, before: map<string, (int, real)>, after: map<string, (int, real)>)
    requires forall c :: c in before ==>
      before[c] == (KeySum(p, CategoryKey(), c, One()), KeySumReal(p, CategoryKey(), c, QuantityFn()))
    requires var c := TextOr(ing.category, NoCategory);
      c !in before ==> KeySum(p, CategoryKey(), c, One()) == 0 && KeySumReal(p, CategoryKey(), c, QuantityFn()) == 0.0
    requires var c := TextOr(ing.category, NoCategory);
      var current := if c in before then before[c] else (0, 0.0);
      after == before[c := (current.0 + 1, current.1 + ing.quantity)]
    ensures forall c :: c in after ==>
      after[c] == (KeySum(p + [ing], CategoryKey(), c, One()), KeySumReal(p + [ing], CategoryKey(), c, QuantityFn()))
  {
    forall c | c in after
      ensures after[c] == (KeySum(p + [ing], CategoryKey(), c, One()), KeySumReal(p + [ing], CategoryKey(), c, QuantityFn()))
    {
      KeySumSnoc(p, ing, CategoryKey(), c, One());
      KeySumRealSnoc(p, ing, CategoryKey(), c, QuantityFn());
    }
  }

  /** The category counts add up to the number of ingredients, and no
      category is listed without an ingredient. */
  lemma StockByCategoryCounts(ings: seq<Ingredient>)
    ensures var r := StockByCategoryOf(ings);
      SumOfInt(r, CategoryCountFn()) == |ings| &&
      forall k :: 0 <= k < |r| ==> r[k].count >= 1
  {
    var ks := Keys(ings, CategoryKey());
    RowsSum(ks, ings, CategoryKey(), One(), CategoryRowFor(ings), CategoryCountFn());
    KeysSumTotal(ings, CategoryKey(), One());
    SumOfOne(ings);
    forall k | 0 <= k < |ks| ensures KeySum(ings, CategoryKey(), ks[k], One()) >= 1 {
      KeyCountPositive(ings, CategoryKey(), ks[k]);
    }
  }

  /** Every category appears once, and every ingredient lands in the entry
      of its category, an ingredient without one in `Sem categoria`. */
  lemma StockByCategoryKeys(ings: seq<Ingredient>)
    ensures var r := StockByCategoryOf(ings);
      (forall i, j :: 0 <= i < j < |r| ==> r[i].category != r[j].category) &&
      (forall ing :: ing in ings ==> exists k :: 0 <= k < |r| && r[k].category == TextOr(ing.category, NoCategory))
  {
    var ks := Keys(ings, CategoryKey());
    KeysMembers(ings, CategoryKey());
    var r := StockByCategoryOf(ings);
    forall ing | ing in ings
      ensures exists k :: 0 <= k < |r| && r[k].category == TextOr(ing.category, NoCategory)
    {
      assert CategoryKey()(ing) in ks;
      var k :| 0 <= k < |ks| && ks[k] == TextOr(ing.category, NoCategory);
      assert r[k].category == ks[k];
    }
  }

  // -----------------------------------------------------------------------
  // Most used ingredients
  // -----------------------------------------------------------------------

  /** A sale movement of the last thirty days, with the name of its
      ingredient when the join found one. */
  datatype UsageMovement = UsageMovement(ingredientId: string, ingredientName: Option<string>)

  datatype IngredientUsage = IngredientUsage(ingredientId: string, ingredientName: string, count: int)

  const UnknownIngredient := "Ingrediente desconhecido"

  /** How many entries the ranked lists keep. */
  const TopCount := 10

  function MovementIngredient(): UsageMovement -> string
  {
    (m: UsageMovement) => m.ingredientId
  }

  /** The name an entry keeps: the one of the first movement of its
      ingredient, since later movements only raise the count. */
  function UsageName(movements: seq<UsageMovement>, id: string): string
  {
    match FirstWithKey(movements, MovementIngredient(), id)
    case Some(m) => TextOr(m.ingredientName, UnknownIngredient)
    case None => UnknownIngredient
  }

  function UsageRowFor(movements: seq<UsageMovement>): string -> IngredientUsage
  {
    (id: string) => IngredientUsage(id, UsageName(movements, id), KeySum(movements, MovementIngredient(), id, One()))
  }

  /** The values of `usageMap`, in order of first occurrence. */
  function UsageOf(movements: seq<UsageMovement>): seq<IngredientUsage>
  {
    Map(Keys(movements, MovementIngredient()), UsageRowFor(movements))
  }

  /** `b.count - a.count < 0` */
  predicate MoreUsed(a: IngredientUsage, b: IngredientUsage)
  {
    a.count > b.count
  }

  lemma MoreUsedIsStrictWeakOrder()
    ensures StrictWeakOrder(MoreUsed)
  {
  }

  /** `topUsedIngredients`: the entries by decreasing count, the first ten. */
  function TopUsedOf(movements: seq<UsageMovement>): seq<IngredientUsage>
  {
    MoreUsedIsStrictWeakOrder();
    Take(SortBy(UsageOf(movements), MoreUsed), TopCount)
  }

  /** The loop that fills `usageMap`, and its values. */
  method UsageByIngredient(movements: seq<UsageMovement>) returns (usage: seq<IngredientUsage>)
    ensures usage == UsageOf(movements)
  {
    var ids: seq<string> := [];
    var usageMap: map<string, (string, int)> := map[];
    for i := 0 to |movements|
      invariant UsageTable(movements[..i], ids, usageMap)
    {
      ids, usageMap := AddUsage(movements[..i], movements[i], ids, usageMap);
      assert movements[..i + 1] == movements[..i] + [movements[i]];
    }
    assert movements[..|movements|] == movements;
    usage := seq(|ids|, k requires 0 <= k < |ids| => IngredientUsage(ids[k], usageMap[ids[k]].0, usageMap[ids[k]].1));
  }

  /** The keys and entries of `usageMap` after the movements `p`. */
  ghost predicate UsageTable(p: seq<UsageMovement>, ids: seq<string>, table: map<string, (string, int)>)
  {
    ids == Keys(p, MovementIngredient()) &&
    (forall id :: id in table <==> id in ids) &&
    forall id :: id in table ==>
      table[id] == (UsageName(p, id), KeySum(p, MovementIngredient(), id, One()))
  }

  /** One turn of the loop over the movements. */
  method AddUsage(ghost p: seq<UsageMovement>, mov: UsageMovement, ids: seq<string>, table: map<string, (string, int)>)
    returns (ids': seq<string>, table': map<string, (string, int)>)
    requires UsageTable(p, ids, table)
    ensures UsageTable(p + [mov], ids', table')
  {
    var ingId := mov.ingredientId;
    var ingName := TextOr(mov.ingredientName, UnknownIngredient);
    var current := (ingName, 0);
    ids' := ids;
    if ingId in table {
      current := table[ingId];
    } else {
      ids' := ids + [ingId];
    }
    table' := table[ingId := (current.0, current.1 + 1)];
    UsageStep(p, mov, table, table');
    KeysSnoc(p, mov, MovementIngredient());
  }

  /** One step of the loop keeps every entry equal to its ingredient's
      first name and count. */
  lemma UsageStep(p: seq<UsageMovement>, mov: UsageMovement, before: map<string, (string, int)>, after: map<string, (string, int)>)
    requires forall id :: id in before <==> id in Keys(p, MovementIngredient())
    requires forall id :: id in before ==>
      before[id] == (UsageName(p, id), KeySum(p, MovementIngredient(), id, One()))
    requires var current := if mov.ingredientId in before then before[mov.ingredientId]
      else (TextOr(mov.ingredientName, UnknownIngredient), 0);
      after == before[mov.ingredientId := (current.0, current.1 + 1)]
    ensures forall id :: id in after ==>
      after[id] == (UsageName(p + [mov], id), KeySum(p + [mov], MovementIngredient(), id, One()))
  {
    forall id | id in after
      ensures after[id] == (UsageName(p + [mov], id), KeySum(p + [mov], MovementIngredient(), id, One()))
    {
      KeySumSnoc(p, mov, MovementIngredient(), id, One());
      FirstWithKeySnoc(p, mov, MovementIngredient(), id);
      FirstWithKeyPresent(p, MovementIngredient(), id);
      if id !in before {
        KeySumAbsent(p, MovementIngredient(), id, One());
      }
    }
  }

  /** The top list holds at most ten entries, by decreasing count, and an
      ingredient left out is used no more often than any listed one. */
  lemma TopUsedRanked(movements: seq<UsageMovement>)
    ensures var t := TopUsedOf(movements);
      |t| <= TopCount &&
      (forall i, j :: 0 <= i < j < |t| ==> t[i].count >= t[j].count) &&
      (forall u, v :: u in UsageOf(movements) && u !in t && v in t ==> u.count <= v.count)
  {
    MoreUsedIsStrictWeakOrder();
    var sorted := SortBy(UsageOf(movements), MoreUsed);
    var t := TopUsedOf(movements);
    assert forall k :: 0 <= k < |t| ==> t[k] == sorted[k];
    forall u, v | u in UsageOf(movements) && u !in t && v in t
      ensures u.count <= v.count
    {
      assert u in multiset(sorted);
      TakeSortedDominates(sorted, MoreUsed, TopCount, u, v);
    }
  }

  /** Every listed entry counts the movements of one ingredient that has
      movements, under the name of its first movement. */
  lemma TopUsedCounts(movements: seq<UsageMovement>)
    ensures forall u :: u in TopUsedOf(movements) ==>
      u.count == KeySum(movements, MovementIngredient(), u.ingredientId, One()) && u.count >= 1 &&
      u.ingredientName == UsageName(movements, u.ingredientId) &&
      exists m :: m in movements && m.ingredientId == u.ingredientId
  {
    MoreUsedIsStrictWeakOrder();
    var ks := Keys(movements, MovementIngredient());
    var sorted := SortBy(UsageOf(movements), MoreUsed);
    KeysMembers(movements, MovementIngredient());
    forall u | u in TopUsedOf(movements)
      ensures u.count == KeySum(movements, MovementIngredient(), u.ingredientId, One()) && u.count >= 1
      ensures u.ingredientName == UsageName(movements, u.ingredientId)
      ensures exists m :: m in movements && m.ingredientId == u.ingredientId
    {
      assert u in sorted;
      assert u in multiset(UsageOf(movements));
      var k :| 0 <= k < |ks| && UsageOf(movements)[k] == u;
      KeyCountPositive(movements, MovementIngredient(), ks[k]);
    }
  }

  // -----------------------------------------------------------------------
  // Movements per day
  // -----------------------------------------------------------------------

  /** One entry of `movementsLast30Days`. */
  datatype DayCount = DayCount(date: string, count: int)

  /** A movement is known here by its day `YYYY-MM-DD` in UTC, the part
      of `toISOString()` before the `T`. */
  function DayKey(): string -> string
  {
    (d: string) => d
  }

  function DayCountFor(days: seq<string>): string -> DayCount
  {
    (d: string) => DayCount(d, KeySum(days, DayKey(), d, One()))
  }

  function DayCountFn(): DayCount -> int
  {
    (e: DayCount) => e.count
  }

  /** `a.date.localeCompare(b.date) < 0` */
  predicate EarlierDay(a: DayCount, b: DayCount)
  {
    StringLess(a.date, b.date)
  }

  lemma EarlierDayIsStrictWeakOrder()
    ensures StrictWeakOrder(EarlierDay)
  {
    StringLessStrictTotal();
  }

  /** `movementsLast30Days`: the number of movements of each day, sorted
      by day. */
  function MovementsLast30DaysOf(days: seq<string>): seq<DayCount>
  {
    EarlierDayIsStrictWeakOrder();
    SortBy(Map(Keys(days, DayKey()), DayCountFor(days)), EarlierDay)
  }

  /** The loop that fills `movementsByDate`, its entries sorted by day. */
  method MovementsByDate(days: seq<string>) returns (movementsLast30Days: seq<DayCount>)
    ensures movementsLast30Days == MovementsLast30DaysOf(days)
  {
    var dates: seq<string> := [];
    var movementsByDate: map<string, int> := map[];
    for i := 0 to |days|
      invariant DayTable(days[..i], dates, movementsByDate)
    {
      dates, movementsByDate := AddDay(days[..i], days[i], dates, movementsByDate);
      assert days[..i + 1] == days[..i] + [days[i]];
    }
    assert days[..|days|] == days;
    var entries := seq(|dates|, k requires 0 <= k < |dates| => DayCount(dates[k], movementsByDate[dates[k]]));
    assert entries == Map(dates, DayCountFor(days));
    EarlierDayIsStrictWeakOrder();
    movementsLast30Days := SortBy(entries, EarlierDay);
  }

  /** The keys and entries of `movementsByDate` after the days `p`. */
  ghost predicate DayTable(p: seq<string>, dates: seq<string>, table: map<string, int>)
  {
    dates == Keys(p, DayKey()) &&
    (forall d :: d in table <==> d in dates) &&
    forall d :: d in table ==> table[d] == KeySum(p, DayKey(), d, One())
  }

  /** One turn of the loop over the movements' days. */
  method AddDay(ghost p: seq<string>, date: string, dates: seq<string>, table: map<string, int>)
    returns (dates': seq<string>, table': map<string, int>)
    requires DayTable(p, dates, table)
    ensures DayTable(p + [date], dates', table')
  {
    var current := 0;
    dates' := dates;
    if date in table {
      current := table[date];
    } else {
      KeySumAbsent(p, DayKey(), date, One());
      dates' := dates + [date];
    }
    table' := table[date := current + 1];
    forall d | d in table'
      ensures table'[d] == KeySum(p + [date], DayKey(), d, One())
    {
      KeySumSnoc(p, date, DayKey(), d, One());
    }
    KeysSnoc(p, date, DayKey());
  }

  /** The day counts add up to the number of movements and every day is
      listed once, in strictly ascending order. */
  lemma MovementsByDateSound(days: seq<string>)
    ensures var r := MovementsLast30DaysOf(days);
      SumOfInt(r, DayCountFn()) == |days| &&
      forall i, j :: 0 <= i < j < |r| ==> StringLess(r[i].date, r[j].date)
  {
    var ks := Keys(days, DayKey());
    var rows := Map(ks, DayCountFor(days));
    var r := MovementsLast30DaysOf(days);
    assert SumOfInt(r, DayCountFn()) == |days| by {
      RowsSum(ks, days, DayKey(), One(), DayCountFor(days), DayCountFn());
      KeysSumTotal(days, DayKey(), One());
      SumOfOne(days);
      SumOfIntPermutation(rows, r, DayCountFn());
    }
    assert NoDuplicates(r) by {
      assert NoDuplicates(rows) by {
        forall i, j | 0 <= i < j < |rows| ensures rows[i] != rows[j] {
          assert rows[i].date == ks[i] && rows[j].date == ks[j];
        }
      }
      NoDuplicatesPermutation(rows, r);
    }
    assert forall i, j :: 0 <= i < j < |r| ==> StringLess(r[i].date, r[j].date) by {
      StringLessStrictTotal();
      forall i, j | 0 <= i < j < |r| ensures StringLess(r[i].date, r[j].date) {
        assert r[i] in multiset(rows) && r[j] in multiset(rows);
        assert r[i] == DayCountFor(days)(r[i].date) && r[j] == DayCountFor(days)(r[j].date);
      }
    }
  }

  /** Every day with a movement has an entry. */
  lemma MovementsByDateCover(days: seq<string>)
    ensures var r := MovementsLast30DaysOf(days);
      forall d :: d in days ==> exists k :: 0 <= k < |r| && r[k].date == d
  {
    var ks := Keys(days, DayKey());
    var rows := Map(ks, DayCountFor(days));
    var r := MovementsLast30DaysOf(days);
    KeysMembers(days, DayKey());
    forall d | d in days
      ensures exists k :: 0 <= k < |r| && r[k].date == d
    {
      assert DayKey()(d) in ks;
      var j :| 0 <= j < |ks| && ks[j] == d;
      assert rows[j] in multiset(r);
      var k :| 0 <= k < |r| && r[k] == rows[j];
    }
  }
}
