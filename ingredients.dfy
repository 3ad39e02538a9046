/** The rules of src/lib/ingredients.ts that do not depend on the database:
    the status badges of an ingredient, the stock quantity after a manual
    movement, the client-side low-stock filter with its pagination, and the
    list of categories. The rows the database returns are inputs. */
module Ingredients {
  import opened Wrappers
  import opened Seqs
  import opened Domain

  // -----------------------------------------------------------------------
  // Status badges
  // -----------------------------------------------------------------------

  datatype StatusType = LowStock | ExpiringSoon | ExpiredStatus | OkStatus

  datatype Variant = Destructive | Warning | Success | Default

  datatype Status = Status(kind: StatusType, labelText: string, variant: Variant)

  /** How many days ahead an expiry date counts as "expiring soon". */
  const ExpiringSoonDays := 3

  /** The badge shown for each kind of status. */
  function StatusFor(kind: StatusType): (s: Status)
    ensures s.kind == kind
  {
    match kind
    case ExpiredStatus => Status(ExpiredStatus, "Vencido", Destructive)
    case ExpiringSoon => Status(ExpiringSoon, "Vencendo em breve", Warning)
    case LowStock => Status(LowStock, "Estoque baixo", Warning)
    case OkStatus => Status(OkStatus, "OK", Success)
  }

  /** The expiry day is before today. */
  predicate IsExpired(ing: Ingredient, today: int)
  {
    match DaysUntil(ing.expiry, today)
    case None => false
    case Some(d) => d < 0
  }

  /** The expiry day is today or within the next three days. */
  predicate IsExpiringSoon(ing: Ingredient, today: int)
  {
    match DaysUntil(ing.expiry, today)
    case None => false
    case Some(d) => 0 <= d <= ExpiringSoonDays
  }

  /** `quantity <= min_stock` */
  predicate IsLowStock(ing: Ingredient)
  {
    ing.quantity <= ing.minStock
  }

  function Kinds(statuses: seq<Status>): (r: seq<StatusType>)
    ensures |r| == |statuses|
    ensures forall k :: 0 <= k < |r| ==> r[k] == statuses[k].kind
  {
    seq(|statuses|, k requires 0 <= k < |statuses| => statuses[k].kind)
  }

  /** The statuses `getIngredientStatuses` reports: "expired" when the
      expiry day has passed, otherwise "expiring soon" when it is at most
      three days away, and then "low stock" whenever the quantity is at or
      below the minimum. */
  function Statuses(ing: Ingredient, today: int): (r: seq<Status>)
    ensures ExpiredStatus in Kinds(r) <==> IsExpired(ing, today)
    ensures ExpiringSoon in Kinds(r) <==> IsExpiringSoon(ing, today)
    ensures LowStock in Kinds(r) <==> IsLowStock(ing)
    ensures OkStatus !in Kinds(r)
    ensures !(ExpiredStatus in Kinds(r) && ExpiringSoon in Kinds(r))
    ensures |r| <= 2
    ensures NoDuplicates(Kinds(r))
    ensures IsLowStock(ing) ==> r[|r| - 1] == StatusFor(LowStock)
    ensures forall k :: 0 <= k < |r| ==> r[k] == StatusFor(r[k].kind)
  {
    var expiry :=
      if IsExpired(ing, today) then [StatusFor(ExpiredStatus)]
      else if IsExpiringSoon(ing, today) then [StatusFor(ExpiringSoon)]
      else [];
    var stock := if IsLowStock(ing) then [StatusFor(LowStock)] else [];
    assert Kinds(expiry) ==
      if IsExpired(ing, today) then [ExpiredStatus]
      else if IsExpiringSoon(ing, today) then [ExpiringSoon]
      else [];
    assert Kinds(stock) == if IsLowStock(ing) then [LowStock] else [];
    assert Kinds(expiry + stock) == Kinds(expiry) + Kinds(stock);
    expiry + stock
  }

  /** `getIngredientStatuses`, which pushes the badges one after another. */
  method GetIngredientStatuses(ing: Ingredient, today: int) returns (statuses: seq<Status>)
    ensures statuses == Statuses(ing, today)
  {
    statuses := [];
    if HasDate(ing.expiry) {
      match ing.expiry.day
      case Some(expiryDay) =>
        if expiryDay < today {
          statuses := statuses + [Status(ExpiredStatus, "Vencido", Destructive)];
        } else {
          var threeDaysFromNow := today + ExpiringSoonDays;
          if expiryDay <= threeDaysFromNow {
            statuses := statuses + [Status(ExpiringSoon, "Vencendo em breve", Warning)];
          }
        }
      case None =>
    }
    if ing.quantity <= ing.minStock {
      statuses := statuses + [Status(LowStock, "Estoque baixo", Warning)];
    }
  }

  /** `getIngredientStatus`: the most critical status, expired before
      expiring soon before low stock, and "OK" when there is none. */
  function GetIngredientStatus(ing: Ingredient, today: int): (s: Status)
    ensures s == StatusFor(s.kind)
    ensures s.kind == ExpiredStatus <==> IsExpired(ing, today)
    ensures s.kind == ExpiringSoon <==> IsExpiringSoon(ing, today)
    ensures s.kind == LowStock <==>
      IsLowStock(ing) && !IsExpired(ing, today) && !IsExpiringSoon(ing, today)
    ensures s.kind == OkStatus <==>
      !IsLowStock(ing) && !IsExpired(ing, today) && !IsExpiringSoon(ing, today)
  {
    var statuses := Statuses(ing, today);
    if |statuses| > 0 then statuses[0] else StatusFor(OkStatus)
  }

  // -----------------------------------------------------------------------
  // Manual stock movements
  // -----------------------------------------------------------------------

  /** The quantity after a movement of `quantity` units. */
  function NewQuantity(kind: MovementType, previous: real, quantity: real): (q: real)
    ensures kind == Purchase ==> q == previous + quantity
    ensures kind in {Sale, Waste, Expired} ==>
      q >= 0.0 && (q == previous - quantity || (q == 0.0 && previous - quantity < 0.0))
    ensures kind == Adjustment ==> q == quantity
  {
    match kind
    case Purchase => previous + quantity
    case Sale => Max(0.0, previous - quantity)
    case Waste => Max(0.0, previous - quantity)
    case Expired => Max(0.0, previous - quantity)
    case Adjustment => quantity
  }

  /** Selling what was just bought restores a non-negative stock. */
  lemma SaleUndoesPurchase(previous: real, quantity: real)
    requires previous >= 0.0
    ensures NewQuantity(Sale, NewQuantity(Purchase, previous, quantity), quantity) == previous
  {
  }

  /** Removing stock never takes it below zero, and never above what it
      was when the quantity removed is not negative. */
  lemma RemovalBounded(kind: MovementType, previous: real, quantity: real)
    requires kind in {Sale, Waste, Expired}
    requires previous >= 0.0 && quantity >= 0.0
    ensures 0.0 <= NewQuantity(kind, previous, quantity) <= previous
  {
  }

  /** `createStockMovement` on the table of ingredients keyed by id: fails
      when the ingredient does not exist, otherwise stores the new quantity
      and changes nothing else. */
  method CreateStockMovement(db: map<string, Ingredient>, ingredientId: string, kind: MovementType, quantity: real)
    returns (r: Result<map<string, Ingredient>>)
    ensures ingredientId !in db <==> r.Err?
    ensures r.Err? ==> r.message == "Ingrediente não encontrado"
    ensures r.Ok? ==>
      r.value.Keys == db.Keys &&
      r.value[ingredientId] == db[ingredientId].(quantity := NewQuantity(kind, db[ingredientId].quantity, quantity)) &&
      forall id :: id in db && id != ingredientId ==> r.value[id] == db[id]
  {
    if ingredientId !in db {
      return Err("Ingrediente não encontrado");
    }
    var ingredient := db[ingredientId];
    var previousQuantity := ingredient.quantity;
    var newQuantity := previousQuantity;
    if kind == Purchase {
      newQuantity := previousQuantity + quantity;
    } else if kind == Sale || kind == Waste || kind == Expired {
      newQuantity := Max(0.0, previousQuantity - quantity);
    } else if kind == Adjustment {
      newQuantity := quantity;
    }
    return Ok(db[ingredientId := ingredient.(quantity := newQuantity)]);
  }

  // -----------------------------------------------------------------------
  // Low-stock filter and pagination
  // -----------------------------------------------------------------------

  const ItemsPerPage := 20

  datatype Page = Page(data: seq<Ingredient>, count: nat, page: int, totalPages: nat)

  function IsLowStockRow(): Ingredient -> bool
  {
    (ing: Ingredient) => IsLowStock(ing)
  }

  /** `Math.ceil(n / ITEMS_PER_PAGE) || 1`: the number of pages, at least
      one. */
  function TotalPages(n: nat): (p: nat)
    ensures p >= 1
    ensures n == 0 ==> p == 1
    ensures n <= p * ItemsPerPage
    ensures n > 0 ==> (p - 1) * ItemsPerPage < n
  {
    var pages := (n + ItemsPerPage - 1) / ItemsPerPage;
    if pages == 0 then 1 else pages
  }

  /** `query.range(from, from + ITEMS_PER_PAGE - 1)` as the database
      applies it to `rows`: the rows from index `from` on, at most twenty. */
  function ServerRange(rows: seq<Ingredient>, page: int): (r: seq<Ingredient>)
    requires page >= 1
    ensures |r| <= ItemsPerPage
  {
    var from := (page - 1) * ItemsPerPage;
    if from >= |rows| then []
    else if from + ItemsPerPage <= |rows| then rows[from..from + ItemsPerPage]
    else rows[from..]
  }

  /** The client half of `getIngredients`: keeps the low-stock rows when
      that filter is chosen, then slices out the requested page. */
  function ClientPage(rows: seq<Ingredient>, page: int, lowStockOnly: bool): (p: Page)
    ensures |p.data| <= ItemsPerPage && |p.data| <= p.count
  {
    var filtered := if lowStockOnly then Filter(rows, IsLowStockRow()) else rows;
    Page(JsSlice(filtered, (page - 1) * ItemsPerPage, page * ItemsPerPage),
         |filtered|, page, TotalPages(|filtered|))
  }

  /** `getIngredients` as written: `rows` are the rows matching the
      search, category and expiry filters, newest first. Without the
      low-stock filter the database already cuts out the page, and the
      client slices that page once more. */
  function GetIngredients(rows: seq<Ingredient>, page: int, lowStockOnly: bool): Page
    requires page >= 1
  {
    ClientPage(if lowStockOnly then rows else ServerRange(rows, page), page, lowStockOnly)
  }

  /** With the low-stock filter, the page holds at most twenty rows, all of
      them low on stock, taken in order from exactly the low-stock rows,
      which `count` counts. */
  lemma LowStockPage(rows: seq<Ingredient>, page: int)
    requires page >= 1
    ensures var p := GetIngredients(rows, page, true);
      var filtered := Filter(rows, IsLowStockRow());
      |p.data| <= ItemsPerPage &&
      p.count == |filtered| &&
      p.totalPages == TotalPages(|filtered|) &&
      (forall x :: x in filtered <==> x in rows && IsLowStock(x)) &&
      (forall x :: x in p.data ==> x in rows && IsLowStock(x)) &&
      ((page - 1) * ItemsPerPage < |filtered| ==>
        p.data == filtered[(page - 1) * ItemsPerPage..Min(page * ItemsPerPage, |filtered|)])
  {
  }

  function Min(a: int, b: int): (m: int)
    ensures m <= a && m <= b && (m == a || m == b)
  {
    if a <= b then a else b
  }

  /** As written, every page after the first comes back empty without the
      low-stock filter, and the count and page total describe only the rows
      of the page the database returned. */
  lemma LaterPagesEmpty(rows: seq<Ingredient>, page: int)
    requires page >= 2
    ensures GetIngredients(rows, page, false).data == []
    ensures GetIngredients(rows, page, false).count <= ItemsPerPage
    ensures GetIngredients(rows, page, false).totalPages == 1
  {
  }

  /** The same page with the rows sliced once, and counted in full, as the
      `count: 'exact'` of the query reports them. */
  function GetIngredientsIntended(rows: seq<Ingredient>, page: int, lowStockOnly: bool): Page
    requires page >= 1
  {
    ClientPage(rows, page, lowStockOnly)
  }

  /** Each row sits on exactly one page: row `k` of the selection is row
      `k % 20` of page `k / 20 + 1`, and that page is within the page
      total. */
  lemma IntendedPagesCover(rows: seq<Ingredient>, lowStockOnly: bool, k: nat)
    requires k < GetIngredientsIntended(rows, 1, lowStockOnly).count
    ensures var page := k / ItemsPerPage + 1;
      var filtered := if lowStockOnly then Filter(rows, IsLowStockRow()) else rows;
      var p := GetIngredientsIntended(rows, page, lowStockOnly);
      page <= p.totalPages &&
      k % ItemsPerPage < |p.data| && p.data[k % ItemsPerPage] == filtered[k]
  {
    var page := k / ItemsPerPage + 1;
    var filtered := if lowStockOnly then Filter(rows, IsLowStockRow()) else rows;
    assert GetIngredientsIntended(rows, page, lowStockOnly) ==
      Page(JsSlice(filtered, (page - 1) * ItemsPerPage, page * ItemsPerPage), |filtered|, page, TotalPages(|filtered|));
    SliceCoversIndex(filtered, k);
  }

  /** Index `k` of `s` is index `k % 20` of the slice for page `k / 20 + 1`,
      a page within the page total of `s`. */
  lemma SliceCoversIndex(s: seq<Ingredient>, k: nat)
    requires k < |s|
    ensures var page := k / ItemsPerPage + 1;
      var slice := JsSlice(s, (page - 1) * ItemsPerPage, page * ItemsPerPage);
      page <= TotalPages(|s|) && k % ItemsPerPage < |slice| && slice[k % ItemsPerPage] == s[k]
  {
    var page := k / ItemsPerPage + 1;
    var from := (page - 1) * ItemsPerPage;
    assert from <= k < from + ItemsPerPage && k % ItemsPerPage == k - from;
    var slice := JsSlice(s, from, page * ItemsPerPage);
    assert slice == s[from..Min(from + ItemsPerPage, |s|)];
  }

  /** Without the low-stock filter the intended second page is the second
      block of twenty rows, which the code as written never returns. */
  lemma SecondPageDiffers(rows: seq<Ingredient>)
    requires |rows| > ItemsPerPage
    ensures GetIngredientsIntended(rows, 2, false).data != GetIngredients(rows, 2, false).data
  {
    LaterPagesEmpty(rows, 2);
    assert rows[ItemsPerPage] in GetIngredientsIntended(rows, 2, false).data;
  }

  // -----------------------------------------------------------------------
  // Categories
  // -----------------------------------------------------------------------

  /** The category values that are set and not empty, in row order. */
  function NonEmptyCategories(categories: seq<Option<string>>): (r: seq<string>)
    ensures |r| <= |categories|
    ensures forall c :: c in r <==> Some(c) in categories && c != ""
  {
    if categories == [] then []
    else
      var rest := NonEmptyCategories(categories[1..]);
      assert forall o :: o in categories <==> o == categories[0] || o in categories[1..];
      match categories[0]
      case Some(c) => if c != "" then [c] + rest else rest
      case None => rest
  }

  /** `getCategories`: every category that is set and not empty, once
      each. */
  function GetCategories(categories: seq<Option<string>>): (r: seq<string>)
    ensures NoDuplicates(r) && |r| <= |categories|
    ensures forall c :: c in r <==> Some(c) in categories && c != ""
  {
    Distinct(NonEmptyCategories(categories))
  }
}
