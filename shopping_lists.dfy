/** The rules of src/lib/shopping-lists.ts: the smart list generated from
    the stock, the expense recorded when a list is completed, and the
    defaults of new and updated list items. */
module ShoppingLists {
  import opened Wrappers
  import opened Text
  import opened Seqs
  import opened Domain
  import opened Money
  import opened Financial

  datatype ItemPriority = LowPriority | Normal | HighPriority | Urgent

  /** A row inserted into `shopping_list_items` by the generator. */
  datatype NewItem = NewItem(
    shoppingListId: string,
    ingredientId: Option<string>,
    ingredientName: string,
    quantityNeeded: real,
    unit: string,
    priority: ItemPriority,
    category: Option<string>)

  // -----------------------------------------------------------------------
  // Classification
  // -----------------------------------------------------------------------

  /** How many days ahead the generator replaces an ingredient about to
      expire. */
  const ExpiringWindow := 7

  /** The minimum stock the generator aims for: the configured minimum, or
      one unit when none is set. */
  function EffectiveMin(ing: Ingredient): (m: real)
    ensures m > 0.0
    ensures ing.minStock > 0.0 ==> m == ing.minStock
    ensures ing.minStock <= 0.0 ==> m == 1.0
  {
    if ing.minStock > 0.0 then ing.minStock else 1.0
  }

  /** A date in three dashed fields that is before today. */
  predicate ExpiredForList(ing: Ingredient, today: int)
  {
    match DashedDaysUntil(ing.expiry, today)
    case None => false
    case Some(d) => d < 0
  }

  /** A date in three dashed fields that is today or within seven days. */
  predicate ExpiringForList(ing: Ingredient, today: int)
  {
    match DashedDaysUntil(ing.expiry, today)
    case None => false
    case Some(d) => 0 <= d <= ExpiringWindow
  }

  predicate LowForList(ing: Ingredient, today: int)
  {
    !ExpiredForList(ing, today) && ing.quantity < EffectiveMin(ing)
  }

  predicate NormalForList(ing: Ingredient, today: int)
  {
    !ExpiredForList(ing, today) && ing.quantity >= EffectiveMin(ing)
  }

  function IsExpiredFor(today: int): Ingredient -> bool
  {
    (ing: Ingredient) => ExpiredForList(ing, today)
  }

  function IsExpiringFor(today: int): Ingredient -> bool
  {
    (ing: Ingredient) => ExpiringForList(ing, today)
  }

  function IsLowFor(today: int): Ingredient -> bool
  {
    (ing: Ingredient) => LowForList(ing, today)
  }

  function IsNormalFor(today: int): Ingredient -> bool
  {
    (ing: Ingredient) => NormalForList(ing, today)
  }

  /** Every ingredient falls in exactly one of the buckets expired, low and
      normal; the expiring-soon bucket overlaps low and normal only. */
  lemma BucketsPartition(ing: Ingredient, today: int)
    ensures ExpiredForList(ing, today) || LowForList(ing, today) || NormalForList(ing, today)
    ensures !(ExpiredForList(ing, today) && LowForList(ing, today))
    ensures !(ExpiredForList(ing, today) && NormalForList(ing, today))
    ensures !(LowForList(ing, today) && NormalForList(ing, today))
    ensures !(ExpiredForList(ing, today) && ExpiringForList(ing, today))
  {
  }

  // -----------------------------------------------------------------------
  // Items
  // -----------------------------------------------------------------------

  /** An item of list `listId` that names the stock ingredient `ing` and
      copies its name, unit and category. */
  predicate ItemFor(it: NewItem, listId: string, ing: Ingredient)
  {
    it.shoppingListId == listId && it.ingredientId == Some(ing.id) &&
    it.ingredientName == ing.name && it.unit == ing.unit && it.category == ing.category
  }

  /** An expired ingredient is replaced in full, at least one unit. */
  function ExpiredItem(listId: string, ing: Ingredient): (it: NewItem)
    ensures ItemFor(it, listId, ing)
    ensures it.quantityNeeded == Max(EffectiveMin(ing), 1.0)
    ensures it.quantityNeeded >= 1.0 && it.quantityNeeded >= EffectiveMin(ing)
    ensures it.priority == Urgent
  {
    NewItem(listId, Some(ing.id), ing.name, Max(EffectiveMin(ing), 1.0), ing.unit, Urgent, ing.category)
  }

  /** An ingredient about to expire: what it lacks of its minimum, or the
      whole minimum when it lacks nothing. */
  function ExpiringItem(listId: string, ing: Ingredient): (it: NewItem)
    ensures ItemFor(it, listId, ing)
    ensures it.quantityNeeded > 0.0 && it.priority == HighPriority
    ensures ing.quantity < EffectiveMin(ing) ==> it.quantityNeeded == EffectiveMin(ing) - ing.quantity
    ensures ing.quantity >= EffectiveMin(ing) ==> it.quantityNeeded == EffectiveMin(ing)
  {
    var needed := EffectiveMin(ing) - ing.quantity;
    NewItem(listId, Some(ing.id), ing.name, if needed > 0.0 then needed else EffectiveMin(ing),
            ing.unit, HighPriority, ing.category)
  }

  /** A low ingredient: what it lacks of its minimum, always urgent. */
  function LowItem(listId: string, ing: Ingredient): (it: NewItem)
    ensures ItemFor(it, listId, ing)
    ensures it.quantityNeeded == EffectiveMin(ing) - ing.quantity
    ensures it.priority == Urgent
  {
    NewItem(listId, Some(ing.id), ing.name, EffectiveMin(ing) - ing.quantity, ing.unit, Urgent, ing.category)
  }

  function ExpiredItemOf(listId: string): Ingredient -> NewItem
  {
    (ing: Ingredient) => ExpiredItem(listId, ing)
  }

  function ExpiringItemOf(listId: string): Ingredient -> NewItem
  {
    (ing: Ingredient) => ExpiringItem(listId, ing)
  }

  function LowItemOf(listId: string): Ingredient -> NewItem
  {
    (ing: Ingredient) => LowItem(listId, ing)
  }

  /** The items the generator inserts: one per expired ingredient, then one
      per ingredient expiring within seven days, then one per low
      ingredient, each group in stock order. */
  function SmartItems(listId: string, stock: seq<Ingredient>, today: int): seq<NewItem>
  {
    Map(Filter(stock, IsExpiredFor(today)), ExpiredItemOf(listId)) +
    Map(Filter(stock, IsExpiringFor(today)), ExpiringItemOf(listId)) +
    Map(Filter(stock, IsLowFor(today)), LowItemOf(listId))
  }

  const NoIngredientsMessage := "Nenhum ingrediente cadastrado. Adicione ingredientes ao estoque primeiro."

  /** `generateSmartShoppingList`: fails on an empty stock; otherwise sorts
      the ingredients into four buckets and emits the items of each bucket
      in turn. The list itself is created by the caller under `listId`. */
  method GenerateSmartShoppingList(listId: string, allIngredients: seq<Ingredient>, today: int)
    returns (r: Result<seq<NewItem>>)
    ensures r.Err? <==> |allIngredients| == 0
    ensures r.Err? ==> r.message == NoIngredientsMessage
    ensures r.Ok? ==> r.value == SmartItems(listId, allIngredients, today)
  {
    if |allIngredients| == 0 {
      return Err(NoIngredientsMessage);
    }
    var expired, expiringSoon, lowStock, normalStock := Classify(allIngredients, today);
    var itemsToAdd: seq<NewItem> := [];
    itemsToAdd := AddExpiredItems(listId, expired, itemsToAdd);
    assert itemsToAdd == Map(expired, ExpiredItemOf(listId));
    itemsToAdd := AddExpiringItems(listId, expiringSoon, itemsToAdd);
    itemsToAdd := AddLowStockItems(listId, lowStock, today, itemsToAdd);
    itemsToAdd := AddNormalStockItems(listId, normalStock, today, itemsToAdd);
    return Ok(itemsToAdd);
  }

  /** The first loop of the generator: sorts each ingredient into the
      expired, expiring-soon, low-stock and normal buckets. */
  method Classify(allIngredients: seq<Ingredient>, today: int)
    returns (expiredIngredients: seq<Ingredient>, expiringSoonIngredients: seq<Ingredient>,
             lowStockIngredients: seq<Ingredient>, normalStockIngredients: seq<Ingredient>)
    ensures expiredIngredients == Filter(allIngredients, IsExpiredFor(today))
    ensures expiringSoonIngredients == Filter(allIngredients, IsExpiringFor(today))
    ensures lowStockIngredients == Filter(allIngredients, IsLowFor(today))
    ensures normalStockIngredients == Filter(allIngredients, IsNormalFor(today))
  {
    expiredIngredients, expiringSoonIngredients, lowStockIngredients, normalStockIngredients := [], [], [], [];
    for i := 0 to |allIngredients|
      invariant expiredIngredients == Filter(allIngredients[..i], IsExpiredFor(today))
      invariant expiringSoonIngredients == Filter(allIngredients[..i], IsExpiringFor(today))
      invariant lowStockIngredients == Filter(allIngredients[..i], IsLowFor(today))
      invariant normalStockIngredients == Filter(allIngredients[..i], IsNormalFor(today))
    {
      FilterPrefixStep(allIngredients, i, IsExpiredFor(today));
      FilterPrefixStep(allIngredients, i, IsExpiringFor(today));
      FilterPrefixStep(allIngredients, i, IsLowFor(today));
      FilterPrefixStep(allIngredients, i, IsNormalFor(today));
      var ing := allIngredients[i];
      var isExpired := false;
      var isLowStock := false;
      var minStock := if ing.minStock > 0.0 then ing.minStock else 1.0;
      if HasDate(ing.expiry) {
        var parts := Split(ing.expiry.text, '-');
        if |parts| == 3 {
          match ing.expiry.day
          case Some(expiryDay) =>
            var daysDiff := expiryDay - today;
            if daysDiff < 0 {
              isExpired := true;
              expiredIngredients := expiredIngredients + [ing];
            } else if daysDiff >= 0 && daysDiff <= ExpiringWindow {
              expiringSoonIngredients := expiringSoonIngredients + [ing];
            }
          case None =>
        }
      }
      if !isExpired && ing.quantity < minStock {
        isLowStock := true;
        lowStockIngredients := lowStockIngredients + [ing];
      } else if !isExpired && !isLowStock && ing.quantity >= minStock {
        normalStockIngredients := normalStockIngredients + [ing];
      }
    }
    assert allIngredients[..|allIngredients|] == allIngredients;
  }

  /** The loop over expired ingredients. */
  method AddExpiredItems(listId: string, expiredIngredients: seq<Ingredient>, items: seq<NewItem>)
    returns (itemsToAdd: seq<NewItem>)
    ensures itemsToAdd == items + Map(expiredIngredients, ExpiredItemOf(listId))
  {
    itemsToAdd := items;
    for j := 0 to |expiredIngredients|
      invariant itemsToAdd == items + Map(expiredIngredients[..j], ExpiredItemOf(listId))
    {
      MapPrefixStep(expiredIngredients, j, ExpiredItemOf(listId));
      var ing := expiredIngredients[j];
      var minStock := if ing.minStock > 0.0 then ing.minStock else 1.0;
      var needed := Max(minStock, 1.0);
      itemsToAdd := itemsToAdd + [NewItem(listId, Some(ing.id), ing.name, needed, ing.unit, Urgent, ing.category)];
    }
    assert expiredIngredients[..|expiredIngredients|] == expiredIngredients;
  }

  /** The loop over ingredients expiring within seven days. */
  method AddExpiringItems(listId: string, expiringSoonIngredients: seq<Ingredient>, items: seq<NewItem>)
    returns (itemsToAdd: seq<NewItem>)
    ensures itemsToAdd == items + Map(expiringSoonIngredients, ExpiringItemOf(listId))
  {
    itemsToAdd := items;
    for j := 0 to |expiringSoonIngredients|
      invariant itemsToAdd == items + Map(expiringSoonIngredients[..j], ExpiringItemOf(listId))
    {
      MapPrefixStep(expiringSoonIngredients, j, ExpiringItemOf(listId));
      var ing := expiringSoonIngredients[j];
      var minStock := if ing.minStock > 0.0 then ing.minStock else 1.0;
      var needed := minStock - ing.quantity;
      if needed > 0.0 {
        itemsToAdd := itemsToAdd + [NewItem(listId, Some(ing.id), ing.name, needed, ing.unit, HighPriority, ing.category)];
      } else {
        itemsToAdd := itemsToAdd + [NewItem(listId, Some(ing.id), ing.name, minStock, ing.unit, HighPriority, ing.category)];
      }
    }
    assert expiringSoonIngredients[..|expiringSoonIngredients|] == expiringSoonIngredients;
  }

  /** The loop over low-stock ingredients. The priority it works out is
      not the one stored: every low-stock item is inserted as urgent. */
  method AddLowStockItems(listId: string, lowStockIngredients: seq<Ingredient>, today: int, items: seq<NewItem>)
    returns (itemsToAdd: seq<NewItem>)
    requires forall ing :: ing in lowStockIngredients ==> LowForList(ing, today)
    ensures itemsToAdd == items + Map(lowStockIngredients, LowItemOf(listId))
  {
    itemsToAdd := items;
    for j := 0 to |lowStockIngredients|
      invariant itemsToAdd == items + Map(lowStockIngredients[..j], LowItemOf(listId))
    {
      MapPrefixStep(lowStockIngredients, j, LowItemOf(listId));
      var ing := lowStockIngredients[j];
      assert LowForList(ing, today);
      var minStock := if ing.minStock > 0.0 then ing.minStock else 1.0;
      var needed := minStock - ing.quantity;
      if needed > 0.0 {
        var priority := Normal;
        if ing.quantity <= 0.0 {
          priority := Urgent;
        } else if minStock > 0.0 && ing.quantity < minStock * 0.5 {
          priority := HighPriority;
        } else {
          priority := Normal;
        }
        match DashedDaysUntil(ing.expiry, today) {
          case Some(daysDiff) =>
            if daysDiff >= 0 && daysDiff <= 3 {
              priority := HighPriority;
            }
          case None =>
        }
        itemsToAdd := itemsToAdd + [NewItem(listId, Some(ing.id), ing.name, needed, ing.unit, Urgent, ing.category)];
      }
    }
    assert lowStockIngredients[..|lowStockIngredients|] == lowStockIngredients;
  }

  /** The loop over normal-stock ingredients. None of them lacks anything
      of its minimum, so it adds no item. */
  method AddNormalStockItems(listId: string, normalStockIngredients: seq<Ingredient>, today: int, items: seq<NewItem>)
    returns (itemsToAdd: seq<NewItem>)
    requires forall ing :: ing in normalStockIngredients ==> NormalForList(ing, today)
    ensures itemsToAdd == items
  {
    itemsToAdd := items;
    for j := 0 to |normalStockIngredients|
      invariant itemsToAdd == items
    {
      var ing := normalStockIngredients[j];
      assert NormalForList(ing, today);
      var minStock := if ing.minStock > 0.0 then ing.minStock else 1.0;
      var needed := minStock - ing.quantity;
      if needed > 0.0 {
        var priority := Normal;
        if ing.quantity <= 0.0 {
          priority := Urgent;
        } else if minStock > 0.0 && ing.quantity < minStock * 0.5 {
          priority := HighPriority;
        }
        match DashedDaysUntil(ing.expiry, today) {
          case Some(daysDiff) =>
            if daysDiff >= 0 && daysDiff <= 3 {
              priority := HighPriority;
            }
          case None =>
        }
        itemsToAdd := itemsToAdd + [NewItem(listId, Some(ing.id), ing.name, needed, ing.unit, priority, ing.category)];
      }
    }
  }

  /** Every generated item asks for a positive quantity and is urgent or
      high priority. */
  lemma SmartItemsPositive(listId: string, stock: seq<Ingredient>, today: int)
    ensures forall it :: it in SmartItems(listId, stock, today) ==>
      it.quantityNeeded > 0.0 && it.priority in {Urgent, HighPriority}
  {
    var e := Map(Filter(stock, IsExpiredFor(today)), ExpiredItemOf(listId));
    var s := Map(Filter(stock, IsExpiringFor(today)), ExpiringItemOf(listId));
    var l := Map(Filter(stock, IsLowFor(today)), LowItemOf(listId));
    assert forall k :: 0 <= k < |l| ==> l[k].quantityNeeded > 0.0 by {
      forall k | 0 <= k < |l| ensures l[k].quantityNeeded > 0.0 {
        assert Filter(stock, IsLowFor(today))[k] in Filter(stock, IsLowFor(today));
      }
    }
    forall it | it in SmartItems(listId, stock, today)
      ensures it.quantityNeeded > 0.0 && it.priority in {Urgent, HighPriority}
    {
      assert it in e || it in s || it in l;
    }
  }

  /** One item per expired, per expiring-soon and per low ingredient, in
      that order; an ingredient both about to expire and low is listed
      twice, and normal stock adds nothing. */
  lemma SmartItemsPerIngredient(listId: string, stock: seq<Ingredient>, today: int)
    ensures |SmartItems(listId, stock, today)| ==
      Count(stock, IsExpiredFor(today)) + Count(stock, IsExpiringFor(today)) + Count(stock, IsLowFor(today))
    ensures forall ing :: ing in stock && ExpiredForList(ing, today) ==>
      ExpiredItem(listId, ing) in SmartItems(listId, stock, today)
    ensures forall ing :: ing in stock && ExpiringForList(ing, today) ==>
      ExpiringItem(listId, ing) in SmartItems(listId, stock, today)
    ensures forall ing :: ing in stock && LowForList(ing, today) ==>
      LowItem(listId, ing) in SmartItems(listId, stock, today)
  {
    var items := SmartItems(listId, stock, today);
    forall ing | ing in stock && ExpiredForList(ing, today)
      ensures ExpiredItem(listId, ing) in items
    {
      MapFilterHas(stock, IsExpiredFor(today), ExpiredItemOf(listId), ing);
    }
    forall ing | ing in stock && ExpiringForList(ing, today)
      ensures ExpiringItem(listId, ing) in items
    {
      MapFilterHas(stock, IsExpiringFor(today), ExpiringItemOf(listId), ing);
    }
    forall ing | ing in stock && LowForList(ing, today)
      ensures LowItem(listId, ing) in items
    {
      MapFilterHas(stock, IsLowFor(today), LowItemOf(listId), ing);
    }
  }

  // -----------------------------------------------------------------------
  // Completing a list
  // -----------------------------------------------------------------------

  /** An item of a stored list, as far as the expense needs it; the price is
      in cents, `None` for `null`. */
  datatype ListItem = ListItem(ingredientName: string, price: Option<int>)

  /** A stored list with its items. */
  datatype ShoppingList = ShoppingList(name: string, restaurantId: Option<string>, items: seq<ListItem>)

  /** The call `createFinancialTransaction(restaurantId, input)`. */
  datatype ExpenseCall = ExpenseCall(restaurantId: string, input: TransactionInput)

  /** `item.price && item.price > 0`. */
  predicate Priced(it: ListItem)
  {
    it.price.Some? && it.price.value > 0
  }

  function IsPriced(): ListItem -> bool
  {
    (it: ListItem) => Priced(it)
  }

  function PriceOfFn(): ListItem -> int
  {
    (it: ListItem) => OrZero(it.price)
  }

  /** The amount spent on a list: the prices of its priced items. */
  function Spent(items: seq<ListItem>): int
  {
    SumOfInt(Filter(items, IsPriced()), PriceOfFn())
  }

  /** A sum of positive prices is positive exactly when there is one. */
  lemma {:induction false} SumOfPricedPositive(priced: seq<ListItem>)
    requires forall it :: it in priced ==> Priced(it)
    ensures SumOfInt(priced, PriceOfFn()) >= 0
    ensures SumOfInt(priced, PriceOfFn()) > 0 <==> |priced| > 0
  {
    if |priced| > 0 {
      SumOfIntConcat(priced[..|priced| - 1], [priced[|priced| - 1]], PriceOfFn());
      assert priced[..|priced| - 1] + [priced[|priced| - 1]] == priced;
      SumOfPricedPositive(priced[..|priced| - 1]);
      assert priced[|priced| - 1] in priced;
    }
  }

  /** A list's spending is never negative, and is positive exactly when some
      item carries a positive price. */
  lemma SpentPositiveIff(items: seq<ListItem>)
    ensures Spent(items) >= 0
    ensures Spent(items) > 0 <==> exists it :: it in items && Priced(it)
  {
    var priced := Filter(items, IsPriced());
    assert forall it :: it in priced ==> Priced(it) by {
      forall it | it in priced ensures Priced(it) {
        assert IsPriced()(it);
      }
    }
    SumOfPricedPositive(priced);
    if exists it :: it in items && Priced(it) {
      var it :| it in items && Priced(it);
      assert IsPriced()(it);
      assert it in priced;
    }
    if |priced| > 0 {
      assert priced[0] in priced;
      assert priced[0] in items && Priced(priced[0]);
    }
  }

  /** `${ingredient_name} (R$ 12,50)`. */
  function ItemLabel(it: ListItem): string
  {
    it.ingredientName + " (R$ " + FormatCents(OrZero(it.price)) + ")"
  }

  function ItemLabelFn(): ListItem -> string
  {
    (it: ListItem) => ItemLabel(it)
  }

  const DescriptionLimit := 5

  /** The priced items the description names: the first five. */
  function MentionedItems(priced: seq<ListItem>): (m: seq<ListItem>)
    ensures |m| == if |priced| < DescriptionLimit then |priced| else DescriptionLimit
    ensures m == priced[..|m|]
  {
    Take(priced, DescriptionLimit)
  }

  const DescriptionHead := "Lista de compras: "

  /** The opening of the description: the list's name. */
  function HeadText(listName: string): (h: string)
    ensures |h| == |DescriptionHead| + |listName| + 3
  {
    DescriptionHead + listName + " - "
  }

  /** The closing of the description past five items: how many more. */
  function MoreText(n: nat): string
  {
    " e mais " + NatToString(n) + " item(s)"
  }

  /** The expense description: the list's name, the labels of the first
      five priced items joined by commas and, past five, how many more. */
  function ExpenseDescription(listName: string, priced: seq<ListItem>): (d: string)
    ensures var head := HeadText(listName); |d| >= |head| && d[..|head|] == head
    ensures |priced| > DescriptionLimit ==>
      var more := MoreText(|priced| - DescriptionLimit);
      |d| >= |more| && d[|d| - |more|..] == more
    ensures |priced| <= DescriptionLimit ==>
      d == HeadText(listName) + Join(Map(priced, ItemLabelFn()), ", ")
    ensures |priced| > DescriptionLimit ==>
      d == HeadText(listName) + Join(Map(priced[..DescriptionLimit], ItemLabelFn()), ", ") +
        MoreText(|priced| - DescriptionLimit)
  {
    var itemsDescription := Join(Map(MentionedItems(priced), ItemLabelFn()), ", ");
    var more := if |priced| > DescriptionLimit then MoreText(|priced| - DescriptionLimit) else "";
    assert |priced| <= DescriptionLimit ==> MentionedItems(priced) == priced;
    assert |priced| > DescriptionLimit ==> MentionedItems(priced) == priced[..DescriptionLimit];
    Describe(HeadText(listName), itemsDescription, more)
  }

  /** A string made of three parts starts with the first and ends with the
      last. */
  function Describe(head: string, items: string, more: string): (d: string)
    ensures d == head + items + more
    ensures |d| >= |head| + |more| && d[..|head|] == head && d[|d| - |more|..] == more
    ensures more == "" ==> d == head + items
  {
    head + items + more
  }

  /** The expense `updateShoppingList` records when a list is marked
      completed: only with a user, a stored list with items, a positive
      amount spent and a restaurant. Its failures are swallowed, so the
      completion itself never depends on it. */
  method CompletionExpense(listId: string, list: Option<ShoppingList>, userId: string, supplierId: Option<string>)
    returns (call: Option<ExpenseCall>)
    ensures call.Some? <==>
      userId != "" && list.Some? && |list.value.items| > 0 && Spent(list.value.items) > 0 &&
      list.value.restaurantId.Some? && list.value.restaurantId.value != ""
    ensures call.Some? ==>
      var priced := Filter(list.value.items, IsPriced());
      call.value.restaurantId == list.value.restaurantId.value &&
      call.value.input == TransactionInput(
        Expense, ExpenseDescription(list.value.name, priced), Spent(list.value.items),
        Some("shopping_list"), Some(listId), supplierId, userId, None)
  {
    call := None;
    if userId == "" || list.None? || |list.value.items| == 0 {
      return;
    }
    var totalSpent := 0;
    var itemsWithPrice := Filter(list.value.items, IsPriced());
    for i := 0 to |itemsWithPrice|
      invariant totalSpent == SumOfInt(itemsWithPrice[..i], PriceOfFn())
    {
      SumOfIntPrefixStep(itemsWithPrice, i, PriceOfFn());
      var item := itemsWithPrice[i];
      totalSpent := totalSpent + if item.price.Some? then item.price.value else 0;
    }
    assert itemsWithPrice[..|itemsWithPrice|] == itemsWithPrice;
    if totalSpent > 0 && list.value.restaurantId.Some? && list.value.restaurantId.value != "" {
      var description := ExpenseDescription(list.value.name, itemsWithPrice);
      call := Some(ExpenseCall(list.value.restaurantId.value, TransactionInput(
        Expense, description, totalSpent, Some("shopping_list"), Some(listId), supplierId, userId, None)));
    }
  }

  // -----------------------------------------------------------------------
  // Item defaults
  // -----------------------------------------------------------------------

  /** The fields of `addShoppingListItem`'s `data` that get defaults. */
  datatype ItemInput = ItemInput(ingredientName: string, quantityNeeded: real, unit: string,
                                 priority: Option<ItemPriority>, price: Option<int>)

  datatype ItemRecord = ItemRecord(shoppingListId: string, ingredientName: string, quantityNeeded: real,
                                   unit: string, priority: ItemPriority, price: Option<int>)

  /** The row `addShoppingListItem` inserts: priority `normal` when not
      given, and a missing or zero price stored as `null`. */
  function NewItemRecord(listId: string, data: ItemInput): (r: ItemRecord)
    ensures r.shoppingListId == listId && r.ingredientName == data.ingredientName
    ensures r.quantityNeeded == data.quantityNeeded && r.unit == data.unit
    ensures data.priority.None? ==> r.priority == Normal
    ensures data.priority.Some? ==> r.priority == data.priority.value
    ensures r.price.None? <==> data.price.None? || data.price.value == 0
    ensures r.price.Some? ==> r.price == data.price
  {
    ItemRecord(listId, data.ingredientName, data.quantityNeeded, data.unit,
      data.priority.GetOr(Normal),
      if data.price.Some? && data.price.value != 0 then data.price else None)
  }

  /** The fields of `updateShoppingListItem`'s `data` that get defaults. */
  datatype ItemUpdate = ItemUpdate(isPurchased: Option<bool>, purchasedAt: Option<string>)

  /** `updateShoppingListItem` stamps `purchased_at` with `now` when the
      item is marked purchased without a purchase time. */
  function StampPurchase(data: ItemUpdate, now: string): (r: ItemUpdate)
    ensures r.isPurchased == data.isPurchased
    ensures data.isPurchased == Some(true) && (data.purchasedAt.None? || data.purchasedAt.value == "") ==>
      r.purchasedAt == Some(now)
    ensures !(data.isPurchased == Some(true) && (data.purchasedAt.None? || data.purchasedAt.value == "")) ==>
      r.purchasedAt == data.purchasedAt
  {
    if data.isPurchased == Some(true) && (data.purchasedAt.None? || data.purchasedAt.value == "") then
      data.(purchasedAt := Some(now))
    else data
  }

  /** A purchased item always leaves with a purchase time, and stamping an
      update a second time changes nothing. */
  lemma StampPurchaseStable(data: ItemUpdate, now: string, later: string)
    requires now != ""
    ensures data.isPurchased == Some(true) ==>
      StampPurchase(data, now).purchasedAt.Some? && StampPurchase(data, now).purchasedAt.value != ""
    ensures StampPurchase(StampPurchase(data, now), later) == StampPurchase(data, now)
  {
  }
}
