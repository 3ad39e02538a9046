/** The text reports of src/lib/reports.ts: the stock CSV with its status
    column, the losses CSV and the monthly consumption CSV. The rows the
    database returns are inputs; the rendering of a number by `toString` and
    of a date by `toLocaleDateString` are inputs too. */
module Reports {
  import opened Wrappers
  import opened Seqs
  import opened Text
  import opened Domain
  import opened Grouping
  import Ingredients
  import DashboardStock

  // -----------------------------------------------------------------------
  // CSV
  // -----------------------------------------------------------------------

  /** `"${cell}"`: the cell between double quotes, copied as it is. */
  function Quote(cell: string): (q: string)
    ensures |q| == |cell| + 2 && q[0] == '"' && q[|q| - 1] == '"' && q[1..|q| - 1] == cell
  {
    "\"" + cell + "\""
  }

  function QuoteFn(): string -> string
  {
    (cell: string) => Quote(cell)
  }

  /** `row.map(cell => `"${cell}"`).join(',')` */
  function CsvLine(row: seq<string>): string
  {
    Join(Map(row, QuoteFn()), ",")
  }

  function CsvLineFn(): seq<string> -> string
  {
    (row: seq<string>) => CsvLine(row)
  }

  /** `[headers, ...rows].map(CsvLine).join('\n')` */
  function Csv(headers: seq<string>, rows: seq<seq<string>>): string
  {
    Join(Map([headers] + rows, CsvLineFn()), "\n")
  }

  /** No cell of the row holds a line break. */
  ghost predicate SingleLine(row: seq<string>)
  {
    forall c :: c in row ==> '\n' !in c
  }

  /** No cell of the table holds a line break. */
  ghost predicate SingleLineCells(headers: seq<string>, rows: seq<seq<string>>)
  {
    SingleLine(headers) && forall k :: 0 <= k < |rows| ==> SingleLine(rows[k])
  }

  /** A line of quoted cells holds a line break only if a cell does. */
  lemma CsvLineSingle(row: seq<string>)
    requires SingleLine(row)
    ensures '\n' !in CsvLine(row)
  {
    var quoted := Map(row, QuoteFn());
    forall k | 0 <= k < |quoted| ensures '\n' !in quoted[k] {
      assert row[k] in row;
      assert quoted[k] == "\"" + row[k] + "\"";
    }
    JoinChars(quoted, ",", '\n');
  }

  /** When no cell holds a line break, the text splits back into its lines:
      the header line first, then one line per row. */
  lemma CsvLines(headers: seq<string>, rows: seq<seq<string>>)
    requires SingleLineCells(headers, rows)
    ensures Split(Csv(headers, rows), '\n') == Map([headers] + rows, CsvLineFn())
    ensures |Split(Csv(headers, rows), '\n')| == |rows| + 1
    ensures Split(Csv(headers, rows), '\n')[0] == CsvLine(headers)
    ensures forall k :: 1 <= k <= |rows| ==> Split(Csv(headers, rows), '\n')[k] == CsvLine(rows[k - 1])
  {
    var table := [headers] + rows;
    var lines := Map(table, CsvLineFn());
    forall k | 0 <= k < |lines| ensures '\n' !in lines[k] {
      if k == 0 {
        CsvLineSingle(headers);
      } else {
        assert table[k] == rows[k - 1];
        CsvLineSingle(table[k]);
      }
    }
    SplitJoin(lines, '\n');
    forall k | 1 <= k <= |rows| ensures lines[k] == CsvLine(rows[k - 1]) {
      assert table[k] == rows[k - 1];
    }
  }

  /** When no cell holds a comma, a line splits back into its quoted
      cells. */
  lemma CsvCells(row: seq<string>)
    requires |row| >= 1
    requires forall c :: c in row ==> ',' !in c
    ensures Split(CsvLine(row), ',') == Map(row, QuoteFn())
  {
    var quoted := Map(row, QuoteFn());
    forall k | 0 <= k < |quoted| ensures ',' !in quoted[k] {
      assert row[k] in row;
      assert quoted[k] == "\"" + row[k] + "\"";
    }
    SplitJoin(quoted, ',');
  }

  // -----------------------------------------------------------------------
  // Stock CSV
  // -----------------------------------------------------------------------

  const StockHeaders := ["Nome", "Categoria", "Quantidade", "Unidade", "Estoque Mínimo", "Data de Validade", "Status"]

  const StatusOk := "OK"
  const StatusLow := "Estoque Baixo"
  const StatusExpired := "Vencido"
  const StatusSoon := "Vencendo em Breve"

  /** The status column: an expiry date overrides low stock. */
  function StatusOf(ing: Ingredient, today: int): string
  {
    if DashboardStock.ExpiredOn(ing, today) then StatusExpired
    else if DashboardStock.ExpiringSoonOn(ing, today) then StatusSoon
    else if Ingredients.IsLowStock(ing) then StatusLow
    else StatusOk
  }

  /** The status as the export computes it: `OK`, replaced by low stock,
      then replaced by the state of a dashed expiry date. */
  method StockStatus(ing: Ingredient, today: int) returns (status: string)
    ensures status == StatusOf(ing, today)
  {
    status := StatusOk;
    if ing.quantity <= ing.minStock {
      status := StatusLow;
    }
    if HasDate(ing.expiry) {
      if IsDashed(ing.expiry) {
        match ing.expiry.day {
          case Some(expiryDay) =>
            var daysDiff := expiryDay - today;
            if daysDiff < 0 {
              status := StatusExpired;
            } else if daysDiff <= DashboardStock.SoonDays {
              status := StatusSoon;
            }
          case None =>
        }
      }
    }
  }

  /** Each status names exactly one situation. */
  lemma StatusOfCases(ing: Ingredient, today: int)
    ensures var s := StatusOf(ing, today);
      var expired := DashboardStock.ExpiredOn(ing, today);
      var soon := DashboardStock.ExpiringSoonOn(ing, today);
      (s == StatusExpired <==> expired) &&
      (s == StatusSoon <==> soon) &&
      (s == StatusLow <==> !expired && !soon && ing.quantity <= ing.minStock) &&
      (s == StatusOk <==> !expired && !soon && ing.quantity > ing.minStock)
  {
    assert StatusExpired != StatusSoon && StatusExpired != StatusLow && StatusExpired != StatusOk;
    assert StatusSoon != StatusLow && StatusSoon != StatusOk && StatusLow != StatusOk;
    DashboardStock.AlertsAgreeWithBadges(ing, today);
  }

  /** One line of the stock CSV: seven cells in the order of the header,
      a missing category or expiry date as an empty cell. */
  function StockRow(ing: Ingredient, today: int, show: real -> string): (r: seq<string>)
    ensures |r| == |StockHeaders|
    ensures r[0] == ing.name && r[1] == TextOr(ing.category, "") && r[3] == ing.unit
    ensures r[2] == show(ing.quantity) && r[4] == show(ing.minStock)
    ensures r[5] == ing.expiry.text && r[6] == StatusOf(ing, today)
  {
    [ing.name, TextOr(ing.category, ""), show(ing.quantity), ing.unit, show(ing.minStock),
     ing.expiry.text, StatusOf(ing, today)]
  }

  function StockRowFn(today: int, show: real -> string): Ingredient -> seq<string>
  {
    (ing: Ingredient) => StockRow(ing, today, show)
  }

  /** The CSV of a list of ingredients. */
  function StockCsv(ingredients: seq<Ingredient>, today: int, show: real -> string): string
  {
    Csv(StockHeaders, Map(ingredients, StockRowFn(today, show)))
  }

  /** `exportStockToCSV` as written: it exports the ingredients of
      `getIngredients(restaurantId, 1, {})`, the first page of the stock. */
  function ExportStockToCsv(rows: seq<Ingredient>, today: int, show: real -> string): string
  {
    StockCsv(Ingredients.GetIngredients(rows, 1, false).data, today, show)
  }

  /** The same export over the whole stock. */
  function ExportAllStockToCsv(rows: seq<Ingredient>, today: int, show: real -> string): string
  {
    StockCsv(rows, today, show)
  }

  /** The text of an ingredient holds no line break. */
  ghost predicate SingleLineIngredient(ing: Ingredient)
  {
    '\n' !in ing.name && '\n' !in ing.unit && '\n' !in ing.expiry.text &&
    (ing.category.Some? ==> '\n' !in ing.category.value)
  }

  /** Neither the text of the ingredients nor the rendering of numbers
      holds a line break. */
  ghost predicate SingleLineStock(rows: seq<Ingredient>, show: real -> string)
  {
    (forall ing :: ing in rows ==> SingleLineIngredient(ing)) &&
    forall x :: '\n' !in show(x)
  }

  /** Under that condition the stock CSV has one line per ingredient after
      the header, each the line of its ingredient. */
  lemma StockCsvLines(ingredients: seq<Ingredient>, today: int, show: real -> string)
    requires SingleLineStock(ingredients, show)
    ensures |Split(StockCsv(ingredients, today, show), '\n')| == |ingredients| + 1
    ensures Split(StockCsv(ingredients, today, show), '\n')[0] == CsvLine(StockHeaders)
    ensures forall k :: 1 <= k <= |ingredients| ==>
      Split(StockCsv(ingredients, today, show), '\n')[k] == CsvLine(StockRow(ingredients[k - 1], today, show))
  {
    var rows := Map(ingredients, StockRowFn(today, show));
    forall k | 0 <= k < |rows| ensures SingleLine(rows[k]) {
      assert ingredients[k] in ingredients;
      StockRowSingleLine(ingredients[k], today, show);
    }
    CsvLines(StockHeaders, rows);
  }

  /** The row of an ingredient whose text holds no line break holds none. */
  lemma StockRowSingleLine(ing: Ingredient, today: int, show: real -> string)
    requires SingleLineIngredient(ing) && forall x :: '\n' !in show(x)
    ensures SingleLine(StockRow(ing, today, show))
  {
    var status := StatusOf(ing, today);
    assert '\n' !in status by {
      assert status in {StatusExpired, StatusSoon, StatusLow, StatusOk};
    }
  }

  /** The export as written holds the first twenty ingredients only: with
      more in stock, the rest are missing from the file. */
  lemma ExportStockDropsRows(rows: seq<Ingredient>, today: int, show: real -> string)
    requires SingleLineStock(rows, show)
    ensures ExportStockToCsv(rows, today, show) == StockCsv(rows[..Ingredients.Min(|rows|, Ingredients.ItemsPerPage)], today, show)
    ensures |rows| > Ingredients.ItemsPerPage ==>
      |Split(ExportStockToCsv(rows, today, show), '\n')| == Ingredients.ItemsPerPage + 1 < |rows| + 1
  {
    var n := Ingredients.Min(|rows|, Ingredients.ItemsPerPage);
    assert Ingredients.GetIngredients(rows, 1, false).data == rows[..n];
    assert forall ing :: ing in rows[..n] ==> ing in rows;
    StockCsvLines(rows[..n], today, show);
  }

  /** Over the whole stock, every ingredient has its line. */
  lemma ExportAllStockLines(rows: seq<Ingredient>, today: int, show: real -> string)
    requires SingleLineStock(rows, show)
    ensures |Split(ExportAllStockToCsv(rows, today, show), '\n')| == |rows| + 1
    ensures forall k :: 1 <= k <= |rows| ==>
      Split(ExportAllStockToCsv(rows, today, show), '\n')[k] == CsvLine(StockRow(rows[k - 1], today, show))
  {
    StockCsvLines(rows, today, show);
  }

  // -----------------------------------------------------------------------
  // Losses CSV
  // -----------------------------------------------------------------------

  const LossHeaders := ["Data", "Ingrediente", "Tipo", "Quantidade", "Unidade", "Notas"]

  /** A waste or expiry movement with the name and unit of its ingredient
      when the join found one; `dateText` is its date as
      `toLocaleDateString('pt-BR')` writes it. */
  datatype LossMovement = LossMovement(
    dateText: string,
    ingredientName: Option<string>,
    kind: MovementType,
    quantity: real,
    unit: Option<string>,
    notes: Option<string>)

  /** `mov.type === 'waste' ? 'Desperdício' : 'Vencido'` */
  function LossLabel(kind: MovementType): (name: string)
    ensures kind == Waste ==> name == "Desperdício"
    ensures kind != Waste ==> name == "Vencido"
  {
    if kind == Waste then "Desperdício" else "Vencido"
  }

  function LossRow(mov: LossMovement, show: real -> string): (r: seq<string>)
    ensures |r| == |LossHeaders|
    ensures r[0] == mov.dateText && r[3] == show(mov.quantity)
    ensures r[1] == TextOr(mov.ingredientName, "Desconhecido") && r[2] == LossLabel(mov.kind)
    ensures r[4] == TextOr(mov.unit, "") && r[5] == TextOr(mov.notes, "")
  {
    [mov.dateText, TextOr(mov.ingredientName, "Desconhecido"), LossLabel(mov.kind), show(mov.quantity),
     TextOr(mov.unit, ""), TextOr(mov.notes, "")]
  }

  function LossRowFn(show: real -> string): LossMovement -> seq<string>
  {
    (mov: LossMovement) => LossRow(mov, show)
  }

  /** `exportLossesReport` once its movements are fetched. */
  function LossesCsv(movements: seq<LossMovement>, show: real -> string): string
  {
    Csv(LossHeaders, Map(movements, LossRowFn(show)))
  }

  /** With no line break in the text of the movements or in the rendering
      of numbers, the losses CSV has its header line and one line per
      movement, in the order of the movements. */
  lemma LossesCsvLines(movements: seq<LossMovement>, show: real -> string)
    requires forall x :: '\n' !in show(x)
    requires forall mov :: mov in movements ==>
      '\n' !in mov.dateText && '\n' !in TextOr(mov.ingredientName, "Desconhecido") &&
      '\n' !in TextOr(mov.unit, "") && '\n' !in TextOr(mov.notes, "")
    ensures |Split(LossesCsv(movements, show), '\n')| == |movements| + 1
    ensures Split(LossesCsv(movements, show), '\n')[0] == CsvLine(LossHeaders)
    ensures forall k :: 1 <= k <= |movements| ==>
      Split(LossesCsv(movements, show), '\n')[k] == CsvLine(LossRow(movements[k - 1], show))
  {
    var rows := Map(movements, LossRowFn(show));
    forall k | 0 <= k < |rows| ensures SingleLine(rows[k]) {
      assert movements[k] in movements;
      LossRowSingleLine(movements[k], show);
    }
    CsvLines(LossHeaders, rows);
  }

  /** The row of a movement whose text holds no line break holds none. */
  lemma LossRowSingleLine(mov: LossMovement, show: real -> string)
    requires forall x :: '\n' !in show(x)
    requires '\n' !in mov.dateText && '\n' !in TextOr(mov.ingredientName, "Desconhecido") &&
      '\n' !in TextOr(mov.unit, "") && '\n' !in TextOr(mov.notes, "")
    ensures SingleLine(LossRow(mov, show))
  {
  }

  // -----------------------------------------------------------------------
  // Monthly consumption CSV
  // -----------------------------------------------------------------------

  /** The ingredient a movement joins to. */
  datatype Joined = Joined(name: string, unit: string, category: Option<string>)

  /** A sale movement of the month, with its ingredient when the join found
      one. */
  datatype ConsumptionMovement = ConsumptionMovement(ingredientId: string, ingredient: Option<Joined>, quantity: real)

  /** One value of `consumptionMap`. */
  datatype Consumption = Consumption(name: string, unit: string, category: string, total: real)

  const ConsumptionHeaders := ["Ingrediente", "Categoria", "Total Consumido", "Unidade"]

  function IsJoinedFn(): ConsumptionMovement -> bool
  {
    (mov: ConsumptionMovement) => mov.ingredient.Some?
  }

  function MovementIngredientKey(): ConsumptionMovement -> string
  {
    (mov: ConsumptionMovement) => mov.ingredientId
  }

  function MovementQuantityFn(): ConsumptionMovement -> real
  {
    (mov: ConsumptionMovement) => mov.quantity
  }

  /** The movements the report counts: those whose ingredient was found. */
  function Joins(movements: seq<ConsumptionMovement>): seq<ConsumptionMovement>
  {
    Filter(movements, IsJoinedFn())
  }

  /** The entry of ingredient `id`: name, unit and category from its first
      movement, and the total of its quantities. */
  function ConsumptionFor(joined: seq<ConsumptionMovement>): string -> Consumption
  {
    (id: string) =>
      var first := FirstWithKey(joined, MovementIngredientKey(), id);
      var ing := if first.Some? && first.value.ingredient.Some? then first.value.ingredient.value else Joined("", "", None);
      Consumption(ing.name, ing.unit, TextOr(ing.category, ""), KeySumReal(joined, MovementIngredientKey(), id, MovementQuantityFn()))
  }

  /** The values of `consumptionMap`, in order of first occurrence. */
  function ConsumptionOf(movements: seq<ConsumptionMovement>): seq<Consumption>
  {
    var joined := Joins(movements);
    Map(Keys(joined, MovementIngredientKey()), ConsumptionFor(joined))
  }

  /** `consumptionMap` holds, for the ingredients `ids` of the movements
      `joined` in insertion order, each one's entry. */
  ghost predicate ConsumptionBuckets(joined: seq<ConsumptionMovement>, ids: seq<string>, consumptionMap: map<string, Consumption>)
  {
    ids == Keys(joined, MovementIngredientKey()) &&
    (forall id :: id in consumptionMap <==> id in ids) &&
    forall id :: id in consumptionMap ==> consumptionMap[id] == ConsumptionFor(joined)(id)
  }

  /** The `forEach` that fills `consumptionMap`, and its values. */
  method MonthlyConsumption(movements: seq<ConsumptionMovement>) returns (consumption: seq<Consumption>)
    ensures consumption == ConsumptionOf(movements)
  {
    var ids: seq<string> := [];
    var consumptionMap: map<string, Consumption> := map[];
    for i := 0 to |movements|
      invariant ConsumptionBuckets(Joins(movements[..i]), ids, consumptionMap)
    {
      var mov := movements[i];
      FilterPrefixStep(movements, i, IsJoinedFn());
      if mov.ingredient.Some? {
        ids, consumptionMap := AddConsumption(Joins(movements[..i]), mov, ids, consumptionMap);
      }
    }
    assert movements[..|movements|] == movements;
    consumption := seq(|ids|, k requires 0 <= k < |ids| => consumptionMap[ids[k]]);
  }

  /** The update of `consumptionMap` for one movement with an ingredient:
      a new ingredient enters with this movement's name, unit and category,
      a known one keeps them. */
  method AddConsumption(joined: seq<ConsumptionMovement>, mov: ConsumptionMovement, ids: seq<string>, consumptionMap: map<string, Consumption>)
    returns (ids': seq<string>, consumptionMap': map<string, Consumption>)
    requires mov.ingredient.Some?
    requires ConsumptionBuckets(joined, ids, consumptionMap)
    ensures ConsumptionBuckets(joined + [mov], ids', consumptionMap')
  {
    var ingId := mov.ingredientId;
    var ing := mov.ingredient.value;
    var current := Consumption(ing.name, ing.unit, TextOr(ing.category, ""), 0.0);
    ids' := ids;
    if ingId in consumptionMap {
      current := consumptionMap[ingId];
    } else {
      KeySumRealAbsent(joined, MovementIngredientKey(), ingId, MovementQuantityFn());
      ids' := ids + [ingId];
    }
    consumptionMap' := consumptionMap[ingId := current.(total := current.total + mov.quantity)];
    forall id | id in consumptionMap'
      ensures consumptionMap'[id] == ConsumptionFor(joined + [mov])(id)
    {
      KeySumRealSnoc(joined, mov, MovementIngredientKey(), id, MovementQuantityFn());
      FirstWithKeySnoc(joined, mov, MovementIngredientKey(), id);
      FirstWithKeyPresent(joined, MovementIngredientKey(), id);
    }
    KeysSnoc(joined, mov, MovementIngredientKey());
  }

  /** `b.total - a.total < 0` */
  predicate MoreConsumed(a: Consumption, b: Consumption)
  {
    a.total > b.total
  }

  lemma MoreConsumedIsStrictWeakOrder()
    ensures StrictWeakOrder(MoreConsumed)
  {
  }

  /** The entries by decreasing total. */
  function RankedConsumption(movements: seq<ConsumptionMovement>): seq<Consumption>
  {
    MoreConsumedIsStrictWeakOrder();
    SortBy(ConsumptionOf(movements), MoreConsumed)
  }

  /** One line of the consumption CSV, in the order of the header. */
  function ConsumptionRow(c: Consumption, show: real -> string): (r: seq<string>)
    ensures |r| == |ConsumptionHeaders|
    ensures r[0] == c.name && r[1] == c.category
    ensures r[2] == show(c.total) && r[3] == c.unit
  {
    [c.name, c.category, show(c.total), c.unit]
  }

  function ConsumptionRowFn(show: real -> string): Consumption -> seq<string>
  {
    (c: Consumption) => ConsumptionRow(c, show)
  }

  /** `exportMonthlyConsumptionReport` once its movements are fetched. */
  function MonthlyConsumptionCsv(movements: seq<ConsumptionMovement>, show: real -> string): string
  {
    Csv(ConsumptionHeaders, Map(RankedConsumption(movements), ConsumptionRowFn(show)))
  }

  /** A movement whose ingredient was not found changes nothing. */
  lemma UnjoinedSkipped(movements: seq<ConsumptionMovement>, mov: ConsumptionMovement)
    requires mov.ingredient.None?
    ensures ConsumptionOf(movements + [mov]) == ConsumptionOf(movements)
  {
    FilterSnoc(movements, mov, IsJoinedFn());
  }

  /** The report lists the entries by decreasing total, one entry per
      ingredient that has a joined movement, each entry's total the sum of
      that ingredient's quantities. */
  lemma RankedConsumptionSound(movements: seq<ConsumptionMovement>)
    ensures forall i, j :: 0 <= i < j < |RankedConsumption(movements)| ==>
      RankedConsumption(movements)[i].total >= RankedConsumption(movements)[j].total
    ensures multiset(RankedConsumption(movements)) == multiset(ConsumptionOf(movements))
    ensures |RankedConsumption(movements)| == |Keys(Joins(movements), MovementIngredientKey())|
    ensures forall c :: c in RankedConsumption(movements) ==>
      (exists id :: id in Keys(Joins(movements), MovementIngredientKey()) &&
        c.total == KeySumReal(Joins(movements), MovementIngredientKey(), id, MovementQuantityFn()))
  {
    MoreConsumedIsStrictWeakOrder();
    var joined := Joins(movements);
    var ks := Keys(joined, MovementIngredientKey());
    var r := RankedConsumption(movements);
    forall c | c in r
      ensures exists id :: id in ks && c.total == KeySumReal(joined, MovementIngredientKey(), id, MovementQuantityFn())
    {
      assert c in multiset(ConsumptionOf(movements));
      var k :| 0 <= k < |ks| && ConsumptionOf(movements)[k] == c;
      assert ks[k] in ks;
    }
  }

  /** With no line break in the entries or in the rendering of numbers,
      the consumption CSV has its header line and then one line per
      ingredient with a joined movement, largest total first. */
  lemma MonthlyConsumptionCsvLines(movements: seq<ConsumptionMovement>, show: real -> string)
    requires forall x :: '\n' !in show(x)
    requires forall c :: c in ConsumptionOf(movements) ==>
      '\n' !in c.name && '\n' !in c.unit && '\n' !in c.category
    ensures |Split(MonthlyConsumptionCsv(movements, show), '\n')| == |Keys(Joins(movements), MovementIngredientKey())| + 1
    ensures Split(MonthlyConsumptionCsv(movements, show), '\n')[0] == CsvLine(ConsumptionHeaders)
    ensures forall k :: 1 <= k <= |RankedConsumption(movements)| ==>
      Split(MonthlyConsumptionCsv(movements, show), '\n')[k] == CsvLine(ConsumptionRow(RankedConsumption(movements)[k - 1], show))
  {
    var ranked := RankedConsumption(movements);
    assert multiset(ranked) == multiset(ConsumptionOf(movements));
    forall c | c in ranked ensures '\n' !in c.name && '\n' !in c.unit && '\n' !in c.category {
      assert c in multiset(ConsumptionOf(movements));
    }
    ConsumptionCsvLines(ranked, show);
  }

  /** The consumption CSV of any list of entries: its header line, then the
      line of each entry in turn. */
  lemma ConsumptionCsvLines(entries: seq<Consumption>, show: real -> string)
    requires forall x :: '\n' !in show(x)
    requires forall c :: c in entries ==> '\n' !in c.name && '\n' !in c.unit && '\n' !in c.category
    ensures |Split(Csv(ConsumptionHeaders, Map(entries, ConsumptionRowFn(show))), '\n')| == |entries| + 1
    ensures Split(Csv(ConsumptionHeaders, Map(entries, ConsumptionRowFn(show))), '\n')[0] == CsvLine(ConsumptionHeaders)
    ensures forall k :: 1 <= k <= |entries| ==>
      Split(Csv(ConsumptionHeaders, Map(entries, ConsumptionRowFn(show))), '\n')[k] == CsvLine(ConsumptionRow(entries[k - 1], show))
  {
    var rows := Map(entries, ConsumptionRowFn(show));
    forall k | 0 <= k < |rows| ensures SingleLine(rows[k]) {
      assert entries[k] in entries;
      assert rows[k] == ConsumptionRow(entries[k], show);
    }
    CsvLines(ConsumptionHeaders, rows);
    forall k | 1 <= k <= |entries|
      ensures Split(Csv(ConsumptionHeaders, rows), '\n')[k] == CsvLine(ConsumptionRow(entries[k - 1], show))
    {
      assert rows[k - 1] == ConsumptionRow(entries[k - 1], show);
    }
  }
}
