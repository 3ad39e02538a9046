/** The consumption analysis of src/lib/consumption.ts: average use per
    day and week over a period of sales, the days until the stock runs out,
    the trend between the two halves of the period, and the ingredients at
    risk of running out within a week. */
module Consumption {
  import opened Wrappers
  import opened Seqs
  import opened Domain

  /** A `sale` stock movement of the period, oldest first. */
  datatype SaleMovement = SaleMovement(quantity: real, createdAt: string)

  datatype Trend = Increasing | Decreasing | Stable

  /** A `ConsumptionAnalysis`; the predicted date is a day number. */
  datatype Analysis = Analysis(
    ingredientId: string,
    ingredientName: string,
    averageDaily: real,
    averageWeekly: real,
    daysUntilEmpty: Option<int>,
    predictedEmptyDay: Option<int>,
    trend: Trend,
    lastMovementDate: Option<string>)

  /** The length of the analysed period in days; every caller uses the
      default of 30. */
  type PeriodDays = d: int | d > 0 witness 30

  function QuantityFn(): SaleMovement -> real
  {
    (m: SaleMovement) => m.quantity
  }

  /** `movements.reduce((sum, mov) => sum + mov.quantity, 0)` */
  function Total(movements: seq<SaleMovement>): real
  {
    SumOf(movements, QuantityFn())
  }

  /** `Math.floor(quantity / average)`: the whole days the stock lasts. */
  function WholeDays(quantity: real, average: real): (n: int)
    requires quantity > 0.0 && average > 0.0
    ensures n >= 0
    ensures (n as real) * average <= quantity < ((n + 1) as real) * average
  {
    FloorTimes(quantity, average);
    (quantity / average).Floor
  }

  lemma FloorTimes(q: real, average: real)
    requires q > 0.0 && average > 0.0
    ensures ((q / average).Floor as real) * average <= q < (((q / average).Floor + 1) as real) * average
  {
    var x := q / average;
    var lo, hi := x.Floor as real, (x.Floor + 1) as real;
    assert x * average == q;
    assert lo <= x < hi;
    MultiplyBounds(lo, x, average);
    MultiplyBounds(x, hi, average);
    assert x * average < hi * average;
    assert q < hi * average;
    assert lo * average <= q;
  }

  lemma MultiplyBounds(a: real, b: real, c: real)
    requires a <= b && c > 0.0
    ensures a * c <= b * c
    ensures a < b ==> a * c < b * c
  {
  }

  /** The trend: up when the second half of the period sold more than 10 %
      over the first, down when it sold more than 10 % under it. */
  function TrendOf(first: real, second: real): (t: Trend)
    ensures t == Increasing <==> second > first * 1.1
    ensures t == Decreasing <==> second <= first * 1.1 && second < first * 0.9
    ensures t == Stable <==> first * 0.9 <= second <= first * 1.1
  {
    if second > first * 1.1 then Increasing
    else if second < first * 0.9 then Decreasing
    else Stable
  }

  /** Equal halves, or a period without sales, make a stable trend. */
  lemma TrendOfEqualHalves(x: real)
    requires x >= 0.0
    ensures TrendOf(x, x) == Stable
  {
  }

  /** The analysis of one ingredient from its sales in the period. */
  function ConsumptionAnalysis(ing: Ingredient, sales: seq<SaleMovement>, days: PeriodDays, today: int): (a: Analysis)
    ensures a.ingredientId == ing.id && a.ingredientName == ing.name
    ensures |sales| == 0 ==>
      a.averageDaily == 0.0 && a.averageWeekly == 0.0 && a.daysUntilEmpty.None? &&
      a.predictedEmptyDay.None? && a.trend == Stable && a.lastMovementDate.None?
    ensures |sales| > 0 ==> a.averageDaily == Total(sales) / days as real
    ensures a.averageWeekly == a.averageDaily * 7.0
    ensures a.daysUntilEmpty.Some? <==> a.averageDaily > 0.0 && ing.quantity > 0.0
    ensures a.daysUntilEmpty.Some? ==>
      var n := a.daysUntilEmpty.value;
      n >= 0 && n as real * a.averageDaily <= ing.quantity < (n + 1) as real * a.averageDaily &&
      a.predictedEmptyDay == Some(today + n)
    ensures a.daysUntilEmpty.None? ==> a.predictedEmptyDay.None?
    ensures |sales| > 0 ==>
      a.trend == TrendOf(Total(sales[..|sales| / 2]), Total(sales[|sales| / 2..])) &&
      a.lastMovementDate == Some(sales[|sales| - 1].createdAt)
  {
    if |sales| == 0 then
      Analysis(ing.id, ing.name, 0.0, 0.0, None, None, Stable, None)
    else
      var averageDaily := Total(sales) / days as real;
      var daysUntilEmpty :=
        if averageDaily > 0.0 && ing.quantity > 0.0 then Some(WholeDays(ing.quantity, averageDaily)) else None;
      var halfPoint := |sales| / 2;
      Analysis(ing.id, ing.name, averageDaily, averageDaily * 7.0,
        daysUntilEmpty,
        if daysUntilEmpty.Some? then Some(today + daysUntilEmpty.value) else None,
        TrendOf(Total(sales[..halfPoint]), Total(sales[halfPoint..])),
        Some(sales[|sales| - 1].createdAt))
  }

  /** `analyzeIngredientConsumption` once the ingredient and its sales of
      the period have been fetched. */
  method AnalyzeIngredientConsumption(ing: Ingredient, salesMovements: seq<SaleMovement>, days: PeriodDays, today: int)
    returns (a: Analysis)
    ensures a == ConsumptionAnalysis(ing, salesMovements, days, today)
  {
    if |salesMovements| == 0 {
      return Analysis(ing.id, ing.name, 0.0, 0.0, None, None, Stable, None);
    }
    var totalConsumption := Total(salesMovements);
    var averageDailyConsumption := totalConsumption / days as real;
    var averageWeeklyConsumption := averageDailyConsumption * 7.0;
    var daysUntilEmpty: Option<int> := None;
    var predictedEmptyDay: Option<int> := None;
    if averageDailyConsumption > 0.0 && ing.quantity > 0.0 {
      var n := (ing.quantity / averageDailyConsumption).Floor;
      daysUntilEmpty := Some(n);
      predictedEmptyDay := Some(today + n);
    }
    var halfPoint := |salesMovements| / 2;
    var firstHalfConsumption := Total(salesMovements[..halfPoint]);
    var secondHalfConsumption := Total(salesMovements[halfPoint..]);
    var consumptionTrend := Stable;
    if secondHalfConsumption > firstHalfConsumption * 1.1 {
      consumptionTrend := Increasing;
    } else if secondHalfConsumption < firstHalfConsumption * 0.9 {
      consumptionTrend := Decreasing;
    }
    var lastMovement := salesMovements[|salesMovements| - 1];
    a := Analysis(ing.id, ing.name, averageDailyConsumption, averageWeeklyConsumption,
      daysUntilEmpty, predictedEmptyDay, consumptionTrend, Some(lastMovement.createdAt));
  }

  /** The sales of an ingredient: none when the map has no entry. */
  function SalesOf(sales: map<string, seq<SaleMovement>>, id: string): seq<SaleMovement>
  {
    if id in sales then sales[id] else []
  }

  function AnalysisOf(sales: map<string, seq<SaleMovement>>, days: PeriodDays, today: int): Ingredient -> Analysis
  {
    (ing: Ingredient) => ConsumptionAnalysis(ing, SalesOf(sales, ing.id), days, today)
  }

  /** `analyzeAllConsumption`: one analysis per ingredient, in order. The
      ingredients are the fetched rows, so none is missing. */
  method AnalyzeAllConsumption(ingredients: seq<Ingredient>, sales: map<string, seq<SaleMovement>>,
                               days: PeriodDays, today: int)
    returns (analyses: seq<Analysis>)
    ensures analyses == Map(ingredients, AnalysisOf(sales, days, today))
  {
    analyses := [];
    for i := 0 to |ingredients|
      invariant analyses == Map(ingredients[..i], AnalysisOf(sales, days, today))
    {
      MapPrefixStep(ingredients, i, AnalysisOf(sales, days, today));
      var analysis := AnalyzeIngredientConsumption(ingredients[i], SalesOf(sales, ingredients[i].id), days, today);
      analyses := analyses + [analysis];
    }
    assert ingredients[..|ingredients|] == ingredients;
  }

  // -----------------------------------------------------------------------
  // getRuptureRiskIngredients
  // -----------------------------------------------------------------------

  datatype Risk = High | Medium | Low

  datatype RiskRow = RiskRow(analysis: Analysis, riskLevel: Risk)

  /** Stock that will run out in less than a week. */
  predicate AtRisk(a: Analysis)
  {
    a.daysUntilEmpty.Some? && a.daysUntilEmpty.value < 7
  }

  function AtRiskFn(): Analysis -> bool
  {
    (a: Analysis) => AtRisk(a)
  }

  /** High up to two days, medium up to four, low otherwise. */
  function RiskOf(a: Analysis): (r: Risk)
    ensures a.daysUntilEmpty.Some? ==>
      (r == High <==> a.daysUntilEmpty.value <= 2) &&
      (r == Medium <==> 2 < a.daysUntilEmpty.value <= 4) &&
      (r == Low <==> a.daysUntilEmpty.value > 4)
    ensures a.daysUntilEmpty.None? ==> r == Low
  {
    if a.daysUntilEmpty.Some? then
      if a.daysUntilEmpty.value <= 2 then High
      else if a.daysUntilEmpty.value <= 4 then Medium
      else Low
    else Low
  }

  function WithRiskFn(): Analysis -> RiskRow
  {
    (a: Analysis) => RiskRow(a, RiskOf(a))
  }

  /** `{ high: 0, medium: 1, low: 2 }` */
  function RiskRank(r: Risk): int
  {
    match r
    case High => 0
    case Medium => 1
    case Low => 2
  }

  /** `a.daysUntilEmpty || 999`: null and zero both read as 999. */
  function DaysKey(a: Analysis): int
  {
    if a.daysUntilEmpty.Some? && a.daysUntilEmpty.value != 0 then a.daysUntilEmpty.value else 999
  }

  /** The comparator of the sort, read as "strictly before". */
  predicate RiskBefore(x: RiskRow, y: RiskRow)
  {
    if x.riskLevel != y.riskLevel then RiskRank(x.riskLevel) < RiskRank(y.riskLevel)
    else DaysKey(x.analysis) < DaysKey(y.analysis)
  }

  lemma RiskBeforeIsStrictWeakOrder()
    ensures StrictWeakOrder(RiskBefore)
  {
  }

  /** `getRuptureRiskIngredients` over the analyses: those at risk, tagged
      with their risk level, sorted. */
  function RuptureRisk(analyses: seq<Analysis>): seq<RiskRow>
  {
    RiskBeforeIsStrictWeakOrder();
    SortBy(Map(Filter(analyses, AtRiskFn()), WithRiskFn()), RiskBefore)
  }

  /** Exactly the analyses at risk are listed, each once, tagged with its
      own risk level; a listed analysis runs out within six days. */
  lemma RuptureRiskSound(analyses: seq<Analysis>)
    ensures var r := RuptureRisk(analyses);
      |r| == Count(analyses, AtRiskFn()) &&
      (forall k :: 0 <= k < |r| ==>
        r[k].analysis in analyses && AtRisk(r[k].analysis) && r[k].riskLevel == RiskOf(r[k].analysis)) &&
      (forall a :: a in analyses && AtRisk(a) ==> RiskRow(a, RiskOf(a)) in r)
  {
    var kept := Filter(analyses, AtRiskFn());
    var rows := Map(kept, WithRiskFn());
    var r := RuptureRisk(analyses);
    forall k | 0 <= k < |r|
      ensures r[k].analysis in analyses && AtRisk(r[k].analysis) && r[k].riskLevel == RiskOf(r[k].analysis)
    {
      assert r[k] in multiset(rows);
      var j :| 0 <= j < |rows| && rows[j] == r[k];
      assert kept[j] in kept;
    }
    forall a | a in analyses && AtRisk(a)
      ensures RiskRow(a, RiskOf(a)) in r
    {
      assert a in kept;
      var j :| 0 <= j < |kept| && kept[j] == a;
      assert rows[j] in multiset(r);
    }
  }

  /** The list runs from high to low risk and, within a level, by
      `daysUntilEmpty || 999` ascending. */
  lemma RuptureRiskOrdered(analyses: seq<Analysis>)
    ensures var r := RuptureRisk(analyses);
      forall i, j :: 0 <= i < j < |r| ==>
        RiskRank(r[i].riskLevel) <= RiskRank(r[j].riskLevel) &&
        (r[i].riskLevel == r[j].riskLevel ==> DaysKey(r[i].analysis) <= DaysKey(r[j].analysis))
  {
  }

  /** As written, `|| 999` sends stock that runs out today behind stock
      that lasts one more day, although both are high risk. */
  lemma EmptyTodaySortsLast(analyses: seq<Analysis>, today: Analysis, tomorrow: Analysis)
    requires today in analyses && today.daysUntilEmpty == Some(0)
    requires tomorrow in analyses && tomorrow.daysUntilEmpty == Some(1)
    ensures var r := RuptureRisk(analyses);
      exists i, j :: 0 <= i < j < |r| && r[i].analysis == tomorrow && r[j].analysis == today
  {
    var r := RuptureRisk(analyses);
    var x, y := RiskRow(today, High), RiskRow(tomorrow, High);
    assert x in r && y in r by {
      RuptureRiskSound(analyses);
    }
    var j :| 0 <= j < |r| && r[j] == x;
    var i :| 0 <= i < |r| && r[i] == y;
    assert RiskBefore(r[i], r[j]);
    RiskBeforeIsStrictWeakOrder();
    SortedPrecedes(r, RiskBefore, i, j);
  }

  /** `a.daysUntilEmpty ?? 999`: only a missing value reads as 999. */
  function DaysKeyIntended(a: Analysis): int
  {
    if a.daysUntilEmpty.Some? then a.daysUntilEmpty.value else 999
  }

  predicate RiskBeforeIntended(x: RiskRow, y: RiskRow)
  {
    if x.riskLevel != y.riskLevel then RiskRank(x.riskLevel) < RiskRank(y.riskLevel)
    else DaysKeyIntended(x.analysis) < DaysKeyIntended(y.analysis)
  }

  /** The rupture list sorted so that, within a risk level, the stock that
      runs out first comes first. */
  function RuptureRiskIntended(analyses: seq<Analysis>): seq<RiskRow>
  {
    assert StrictWeakOrder(RiskBeforeIntended);
    SortBy(Map(Filter(analyses, AtRiskFn()), WithRiskFn()), RiskBeforeIntended)
  }

  /** Within a risk level the intended list is in ascending order of days
      until empty, zero included. */
  lemma RuptureRiskIntendedOrdered(analyses: seq<Analysis>)
    ensures var r := RuptureRiskIntended(analyses);
      forall i, j :: 0 <= i < j < |r| ==>
        RiskRank(r[i].riskLevel) <= RiskRank(r[j].riskLevel) &&
        (r[i].riskLevel == r[j].riskLevel && AtRisk(r[i].analysis) && AtRisk(r[j].analysis) ==>
          r[i].analysis.daysUntilEmpty.value <= r[j].analysis.daysUntilEmpty.value)
  {
  }
}
