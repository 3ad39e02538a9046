# Restaurant stock management: the business rules, verified

This project models in Dafny the business rules of a stock-management
application for restaurants: the ingredients in stock with their expiry
dates and minimum stock levels, the movements that change those
quantities, the recipe suggestions drawn from what is about to expire, the
smart shopping list, the consumption and rupture-risk analysis, the
dashboard, the CSV reports, the financial totals, and three pieces of form
logic (the price field, the password-strength meter and the sign-up check).

The application reads its rows from a hosted database. Here those rows are
the inputs of each rule; a query that fails throws and is not modelled,
while a result the code reads as `data || []` is an empty input. Calendar
days are whole numbers and "today" is an input. Money is held in whole
cents, and quantities in stock are exact reals. JavaScript's `Array.sort`
is a stable insertion sort over a strict weak order (`Seqs.SortBy`), and
every comparator the application passes to it is proved to be one.

Modules, one per source file of the rules, plus shared helpers:

- `Domain`: the records (ingredients, movements, transactions) and expiry dates.
- `Seqs`, `Text`, `Wrappers`, `Grouping`, `Money`: array, string, option and grouping operations; cents and their `toFixed(2)` rendering.
- `Recipes`, `RecipeDatabase`: src/lib/recipes.ts.
- `Ingredients`: src/lib/ingredients.ts.
- `ShoppingLists`: src/lib/shopping-lists.ts.
- `IngredientValidation`: src/lib/ingredient-validation.ts.
- `Consumption`: src/lib/consumption.ts.
- `DashboardStock`, `Dashboard`: src/lib/dashboard.ts.
- `Reports`: src/lib/reports.ts.
- `Financial`: src/lib/financial.ts.
- `Utils`: src/lib/utils.ts.
- `Price`: src/components/EditPriceDialog.tsx.
- `SignUp`: src/pages/SignUp.tsx.

Two behaviours of the code worth noting:

- An expired ingredient on the smart shopping list asks for the larger of its effective minimum and 1 (src/lib/shopping-lists.ts:255). It does not ask for the effective minimum alone, which differs when the minimum stock lies strictly between 0 and 1.
- A low-stock item is always added as urgent (src/lib/shopping-lists.ts:347), whatever priority the code computed for it just before.

## Model

| member | source | states |
|---|---|---|
| Recipes.FoldChar | src/lib/recipes.ts:149-150 | an accented Latin-1 letter becomes exactly one ASCII lower-case letter, a combining accent disappears, any other character is kept |
| Recipes.AccentedSpellingMatches | src/lib/recipes.ts:146-166 | a name with an accented letter normalises as, and matches, the same name spelt with the base letter ("limão" and "limao") |
| Recipes.StripAccents | src/lib/recipes.ts:149-150 | no accent survives (no combining mark U+0300 to U+036F, no accented Latin-1 letter); a text without accents is kept as it is; no capital letter is introduced |
| Recipes.StripAccentsConcat | src/lib/recipes.ts:149-150 | accent removal works character by character, so it distributes over concatenation |
| Recipes.StripAccentsLower | src/lib/recipes.ts:146-150 | removing accents before lower-casing gives, after the normaliser's own lower-casing and accent removal, the same text |
| Recipes.NormalizeIngredientName | src/lib/recipes.ts:146-152 | the normalised name has no capital letter, no accent and no white space at either end |
| Recipes.NormalizeIngredientNameIgnores | src/lib/recipes.ts:146-152 | normalising ignores case and accents (a lower-cased or accent-free name normalises alike), and normalising twice is normalising once |
| Recipes.NamesMatchSymmetric | src/lib/recipes.ts:166 | the "one contains the other" name test does not depend on which name is the recipe's |
| Recipes.NamesMatchInfix | src/lib/recipes.ts:146-166 | a name matches every name it is part of, whatever text surrounds it and whatever the case and accents of that text |
| Recipes.FirstAvailable | src/lib/recipes.ts:157-172 | the record reported matches the recipe ingredient and is in the stock; nothing is reported exactly when no record matches |
| Recipes.IsIngredientAvailable | src/lib/recipes.ts:157-172 | the loop over the stock reports the record `FirstAvailable` describes |
| Recipes.FirstAvailableIsFirst | src/lib/recipes.ts:157-172 | the record reported is the first matching one in list order: it matches and no earlier record does |
| Recipes.IsIngredientExpired | src/lib/recipes.ts:177-201 | not expired without a date, without three dash-separated parts, or with an invalid date; otherwise expired exactly when the expiry day is before today |
| Recipes.GetExpiredIngredients | src/lib/recipes.ts:465-467 | the result holds exactly the expired records of the input |
| Recipes.GetExpiredIngredientsInOrder | src/lib/recipes.ts:465-467 | the filter keeps input order: the result for a concatenation is the concatenation of the results |
| Recipes.PriorityFromCounts | src/lib/recipes.ts:244-252 | high exactly when at least one record is expiring; medium exactly when none is and two records have high stock, or one does among at least three matched |
| Recipes.CalculatePriority | src/lib/recipes.ts:208-253 | the counting loop yields the priority of the specification function |
| Recipes.PriorityHighIff | src/lib/recipes.ts:218-245 | a recipe is high priority exactly when some matched record expires within 0 to 3 days |
| Recipes.PriorityMediumIff | src/lib/recipes.ts:235-250 | otherwise it is medium exactly when enough matched records hold more than twice their minimum stock |
| Recipes.ExpiredNeverCounted | src/lib/recipes.ts:229-232 | records already past their expiry day never make a recipe high priority |
| Recipes.ValidIngredients | src/lib/recipes.ts:267 | the usable stock is exactly the records that are not expired |
| Recipes.MatchedObjects | src/lib/recipes.ts:276-280 | one matched record per available recipe ingredient, each from the usable stock |
| Recipes.EvaluateRecipe | src/lib/recipes.ts:270-290 | the recipe is blocked exactly when some ingredient is missing from the usable stock but its first match in the full stock is expired; otherwise matched and missing names partition the recipe's ingredients in order |
| Recipes.HalfMatchedIff | src/lib/recipes.ts:298-299 | the ratio test is "at least half the ingredients matched", in integers |
| Recipes.Candidates | src/lib/recipes.ts:269-311 | at most one suggestion per table entry |
| Recipes.RecipeBeforeIsStrictWeakOrder | src/lib/recipes.ts:315-344 | the comparator (priority, then matched count, then stock score, all descending) is a strict weak order, so the sort is well defined |
| Recipes.Sorted | src/lib/recipes.ts:315-344 | the sorted suggestions are a permutation of the candidates, ordered by the comparator |
| Recipes.GetRecipeSuggestions | src/lib/recipes.ts:260-347 | the method (both loops, sort and slice) computes the static suggestions |
| Recipes.CandidatesSound | src/lib/recipes.ts:269-311 | the candidates are exactly the table entries that are not blocked and match at least half their ingredients |
| Recipes.SuggestionFromCandidate | src/lib/recipes.ts:347 | every returned suggestion comes from a candidate |
| Recipes.StaticSuggestionsSound | src/lib/recipes.ts:260-311 | no suggestion uses an expired record, and each matched at least half its ingredients |
| Recipes.StaticSuggestionsOrdered | src/lib/recipes.ts:313-347 | suggestions come by descending priority, then descending matched count, and there are at most maxResults of them |
| Recipes.ExpiringIngredients | src/lib/recipes.ts:428-441 | exactly the records expiring within 0 to 3 days |
| Recipes.GetRecipesForExpiringIngredients | src/lib/recipes.ts:421-460 | the method returns the filtered suggestions of the specification function |
| Recipes.ExpiringSuggestionsSound | src/lib/recipes.ts:443-459 | nothing when no record expires soon; at most maxResults; each suggestion uses an expiring record by name |
| Recipes.ExpiringSuggestionsComplete | src/lib/recipes.ts:449-459 | the result keeps the order of the static suggestions (a subsequence of them), and a static suggestion that uses an expiring record is kept whenever fewer than maxResults such suggestions come before it |
| RecipeDatabase.DatabaseIngredientCounts | src/lib/recipes.ts:22-141 | every entry of the recipe table lists five or six ingredients |
| RecipeDatabase.SuggestionsMatchAtLeastThree | src/lib/recipes.ts:297-299 | with that table, every static suggestion has at least three of its ingredients in stock |
| Domain.DaysUntil | src/lib/recipes.ts:220-227 | the days left are known exactly when a date is set and parses, and are the expiry day minus today |
| Domain.DashedDaysUntil | src/lib/recipes.ts:185-198 | the same difference, but only for dates written as three dash-separated fields |
| Domain.TextOr | src/lib/reports.ts:56-62 | a missing or empty text column is replaced by the default; any other value is kept |
| Ingredients.StatusFor | src/lib/ingredients.ts:357-383 | each badge carries the kind it stands for |
| Ingredients.Statuses | src/lib/ingredients.ts:333-387 | "expired" exactly when the expiry day has passed, "expiring soon" exactly when it is at most three days away, "low stock" exactly when quantity is at most the minimum; never both date badges, never "OK", low stock last |
| Ingredients.GetIngredientStatuses | src/lib/ingredients.ts:333-387 | the method that pushes badge after badge returns exactly those statuses |
| Ingredients.GetIngredientStatus | src/lib/ingredients.ts:316-328 | the most critical status, expired before expiring soon before low stock, and "OK" exactly when there is none |
| Ingredients.NewQuantity | src/lib/ingredients.ts:222-232 | purchase adds, sale, waste and expiry subtract but not below zero, adjustment sets |
| Ingredients.SaleUndoesPurchase | src/lib/ingredients.ts:226-229 | selling what was just bought restores the previous stock |
| Ingredients.RemovalBounded | src/lib/ingredients.ts:228-229 | a removal leaves the stock between zero and its previous value |
| Ingredients.CreateStockMovement | src/lib/ingredients.ts:210-242 | fails with "Ingrediente não encontrado" exactly when the id is unknown; otherwise only that ingredient's quantity changes, to the new quantity |
| Ingredients.TotalPages | src/lib/ingredients.ts:81-91 | exactly one page when there is no row; otherwise just enough pages of twenty to hold every row |
| Ingredients.ServerRange | src/lib/ingredients.ts:62-66 | the database range returns at most twenty rows |
| Ingredients.ClientPage | src/lib/ingredients.ts:74-92 | the returned page holds at most twenty rows and no more than the count |
| Ingredients.LowStockPage | src/lib/ingredients.ts:77-92 | with the low-stock filter, the page holds the requested slice of the low-stock rows and the count is all of them |
| Ingredients.LaterPagesEmpty | src/lib/ingredients.ts:62-92 | as written, without the low-stock filter every page after the first is empty and the result claims one page |
| Ingredients.IntendedPagesCover | src/lib/ingredients.ts:61-92 | in the corrected pagination row k of the selection is row k mod 20 of page k div 20 + 1, and that page is within the page total |
| Ingredients.SecondPageDiffers | src/lib/ingredients.ts:62-85 | with more than twenty rows the corrected second page differs from the written one |
| Ingredients.NonEmptyCategories | src/lib/ingredients.ts:184 | exactly the categories that are set and non-empty |
| Ingredients.GetCategories | src/lib/ingredients.ts:173-186 | every set, non-empty category exactly once |
| ShoppingLists.EffectiveMin | src/lib/shopping-lists.ts:214 | the target stock is the configured minimum when positive, otherwise one unit |
| ShoppingLists.BucketsPartition | src/lib/shopping-lists.ts:209-249 | every ingredient is in exactly one of the expired, low and normal buckets; the expiring bucket never overlaps the expired one |
| ShoppingLists.ExpiredItem | src/lib/shopping-lists.ts:252-266 | an expired ingredient is replaced by the larger of its effective minimum and 1, so at least one unit and at least its minimum, as urgent; the item belongs to the list and copies the ingredient's id, name, unit and category |
| ShoppingLists.ExpiringItem | src/lib/shopping-lists.ts:270-297 | an ingredient about to expire asks for what it lacks of its minimum, or the whole minimum when it lacks nothing, as high priority; the item belongs to the list and copies the ingredient's id, name, unit and category |
| ShoppingLists.LowItem | src/lib/shopping-lists.ts:300-351 | a low ingredient asks for what it lacks of its minimum and is stored as urgent whatever priority was worked out; the item belongs to the list and copies the ingredient's id, name, unit and category |
| ShoppingLists.GenerateSmartShoppingList | src/lib/shopping-lists.ts:167-401 | fails with the "no ingredient" message exactly when the stock is empty; otherwise produces the items of the specification function |
| ShoppingLists.Classify | src/lib/shopping-lists.ts:209-249 | the first loop fills each bucket with exactly the ingredients of that kind, in stock order |
| ShoppingLists.AddExpiredItems | src/lib/shopping-lists.ts:252-266 | the loop appends one replacement item per expired ingredient |
| ShoppingLists.AddExpiringItems | src/lib/shopping-lists.ts:270-297 | the loop appends one item per ingredient expiring within seven days |
| ShoppingLists.AddLowStockItems | src/lib/shopping-lists.ts:300-351 | the loop appends one urgent item per low ingredient |
| ShoppingLists.AddNormalStockItems | src/lib/shopping-lists.ts:354-400 | the loop over normal stock adds nothing, since no such ingredient lacks anything |
| ShoppingLists.SmartItemsPositive | src/lib/shopping-lists.ts:252-400 | every generated item asks for a positive quantity and is urgent or high priority |
| ShoppingLists.SmartItemsPerIngredient | src/lib/shopping-lists.ts:252-400 | one item per expired, per expiring and per low ingredient, so an ingredient both expiring and low is listed twice |
| ShoppingLists.SumOfPricedPositive | src/lib/shopping-lists.ts:103-107 | a sum of positive prices is positive exactly when it has a term |
| ShoppingLists.SpentPositiveIff | src/lib/shopping-lists.ts:102-110 | spending is never negative, and is positive exactly when some item has a positive price |
| ShoppingLists.MentionedItems | src/lib/shopping-lists.ts:112-113 | the description names the first five priced items, or all of them when fewer |
| ShoppingLists.ExpenseDescription | src/lib/shopping-lists.ts:112-119 | the description is the list name followed by the labels of the first five priced items joined by ", "; past five items it ends with how many more there are, otherwise it lists every priced item |
| ShoppingLists.CompletionExpense | src/lib/shopping-lists.ts:91-136 | an expense is recorded exactly when there is a user, a stored list with items, a positive amount and a restaurant; it carries the amount spent, the description and the list id |
| ShoppingLists.NewItemRecord | src/lib/shopping-lists.ts:428-451 | the priority defaults to normal, and a missing or zero price is stored as null |
| ShoppingLists.StampPurchase | src/lib/shopping-lists.ts:467-470 | purchase time is stamped exactly when the item is marked purchased without one |
| ShoppingLists.StampPurchaseStable | src/lib/shopping-lists.ts:467-470 | a purchased item always ends up with a purchase time, and stamping twice changes nothing |
| Financial.OrNull | src/lib/financial.ts:27-29 | an absent or empty optional text is stored as null; anything else is kept |
| Financial.NewTransactionRecord | src/lib/financial.ts:7-41 | the inserted row copies the input, stores empty optional texts as null and dates the transaction now unless a date is given |
| Financial.TotalsSplitAmounts | src/lib/financial.ts:163-168 | every transaction counts once, as revenue or as expense |
| Financial.DateBeforeIsStrictWeakOrder | src/lib/financial.ts:181 | ordering by date text is a strict weak order, so the sort is well defined |
| Financial.GetFinancialStats | src/lib/financial.ts:158-188 | the loop, the map-to-rows step and the sort compute the statistics of the specification function |
| Financial.Accumulate | src/lib/financial.ts:158-177 | the loop's totals are the sums of revenue and of expenses, and each day's bucket holds that day's revenue and expenses |
| Financial.BucketStep | src/lib/financial.ts:170-175 | one step of the loop keeps every bucket equal to its day's sums |
| Financial.FinancialStatsTotals | src/lib/financial.ts:179-187 | the day rows add up to the totals, net profit is revenue minus expenses, and the two totals account for every amount |
| Financial.FinancialStatsRows | src/lib/financial.ts:179-181 | every row is a day that has a transaction and holds that day's revenue and expenses |
| Financial.FinancialStatsCoverDays | src/lib/financial.ts:170-181 | every day with a transaction has a row |
| Financial.FinancialStatsAscending | src/lib/financial.ts:181 | the rows are in strictly ascending date order, so no day appears twice |
| DashboardStock.CountAlerts | src/lib/dashboard.ts:26-69 | the loop counts exactly the low-stock, expired and expiring-soon ingredients and lists, in order, those expiring within seven days |
| DashboardStock.AlertCounts | src/lib/dashboard.ts:53-66 | expired and expiring soon exclude each other, so together they count at most every ingredient; every ingredient expiring soon is in the seven-day list |
| DashboardStock.AlertsAgreeWithBadges | src/lib/dashboard.ts:43-62 | the dashboard's expired and expiring-soon tests agree with the ingredient status badges on dates of three dashed fields, and count no other date |
| DashboardStock.StockByCategory | src/lib/dashboard.ts:72-84 | the entries of the filled map are the per-category rows of the specification function |
| DashboardStock.CategoryTotals | src/lib/dashboard.ts:72-80 | the loop's map holds, for each category in order of first occurrence, its number of ingredients and their total quantity |
| DashboardStock.CategoryStep | src/lib/dashboard.ts:74-79 | one step of the loop keeps every entry equal to its category's count and total |
| DashboardStock.StockByCategoryCounts | src/lib/dashboard.ts:72-84 | the category counts add up to the number of ingredients and no category is listed empty |
| DashboardStock.StockByCategoryKeys | src/lib/dashboard.ts:74-84 | each category is listed once, and every ingredient lands in its category, one without a category in "Sem categoria" |
| DashboardStock.MoreUsedIsStrictWeakOrder | src/lib/dashboard.ts:115 | the usage comparator is a strict weak order |
| DashboardStock.UsageByIngredient | src/lib/dashboard.ts:104-112 | the loop yields, per ingredient in order of first movement, its name and number of sale movements |
| DashboardStock.UsageStep | src/lib/dashboard.ts:107-110 | one step keeps every entry equal to its ingredient's first name and count |
| DashboardStock.TopUsedRanked | src/lib/dashboard.ts:114-116 | at most ten entries, by decreasing count, and an ingredient left out is used no more than any listed one |
| DashboardStock.TopUsedCounts | src/lib/dashboard.ts:104-116 | every listed entry counts the movements of one ingredient, at least one, under the name of its first movement |
| DashboardStock.EarlierDayIsStrictWeakOrder | src/lib/dashboard.ts:137 | ordering by day text is a strict weak order |
| DashboardStock.MovementsByDate | src/lib/dashboard.ts:127-137 | the loop and the sort compute the day counts of the specification function |
| DashboardStock.MovementsByDateSound | src/lib/dashboard.ts:127-137 | the day counts add up to the number of movements and the days are strictly ascending |
| DashboardStock.MovementsByDateCover | src/lib/dashboard.ts:129-132 | every day with a movement has an entry |
| Dashboard.QuantityOr1 | src/lib/dashboard.ts:164 | a missing or zero quantity counts as one sale; any other is kept |
| Domain.OrZero | src/lib/dashboard.ts:163 | a missing price or amount counts as zero; one that is set is kept. The sales and expenses of the dashboard and the priced items of a shopping list (src/lib/shopping-lists.ts:106) use it |
| Dashboard.EarlierRevenueDayIsStrictWeakOrder | src/lib/dashboard.ts:200 | ordering revenue days by date text is a strict weak order |
| Dashboard.MoreRevenueIsStrictWeakOrder | src/lib/dashboard.ts:203 | the top-selling comparator is a strict weak order |
| Dashboard.AccumulateSales | src/lib/dashboard.ts:156-196 | the loop's totals are the sums over all sales; the day map holds each recent day's revenue and sales; the recipe map each recipe's |
| Dashboard.AddToDay | src/lib/dashboard.ts:173-178 | adding one recent sale keeps the day map equal to the per-day sums |
| Dashboard.AddToRecipe | src/lib/dashboard.ts:182-194 | adding one sale keeps the recipe map equal to the per-recipe sums, under the first sale's name |
| Dashboard.SalesFigures | src/lib/dashboard.ts:156-204 | totals, revenue per day sorted by day, and the ten recipes with most revenue, as the specification functions give them |
| Dashboard.RevenueLast30DaysSound | src/lib/dashboard.ts:170-200 | the day entries add up to the revenue and sales of the last thirty days, in strictly ascending day order |
| Dashboard.RecipeSalesAddUp | src/lib/dashboard.ts:181-195 | the recipe entries add up to the totals: no sale is lost or counted twice |
| Dashboard.TopSellingRanked | src/lib/dashboard.ts:202-204 | at most ten recipes, by decreasing revenue, and a recipe left out brought in no more than any listed one |
| Dashboard.TotalSalesCountsEverySale | src/lib/dashboard.ts:164-168 | with no negative quantity, every sale counts at least once in the total |
| Domain.Max | src/lib/ingredients.ts:229 | the larger of the two values: a removal never leaves a negative stock, and a missing quantity on a shopping list is at least one (src/lib/shopping-lists.ts:255) |
| Dashboard.GetDashboardStats | src/lib/dashboard.ts:7-295 | once the queries have returned, the method computes the statistics of the specification function |
| Dashboard.RevenueChoice | src/lib/dashboard.ts:236-273 | with revenue transactions the total revenue is the larger of the two sources; without them it is the sales total and the month's revenue comes from this month's sales |
| Dashboard.MonthlyWithinTotals | src/lib/dashboard.ts:213-250 | with no negative amounts, the month's expenses and sales are at most the totals |
| Dashboard.StockFiguresConsistent | src/lib/dashboard.ts:21-84 | the alert counters and the category counts account for the ingredients; there are no more categories than ingredients |
| Consumption.WholeDays | src/lib/consumption.ts:63 | the whole number of days the stock lasts: that many days of average use fit in the stock, one more does not |
| Consumption.TrendOf | src/lib/consumption.ts:78-83 | increasing exactly when the second half sold more than 10 % over the first, decreasing exactly when otherwise it sold more than 10 % under it, stable otherwise |
| Consumption.TrendOfEqualHalves | src/lib/consumption.ts:78-83 | equal halves give a stable trend |
| Consumption.ConsumptionAnalysis | src/lib/consumption.ts:38-98 | no sales gives the all-zero stable analysis; otherwise the daily average is the total over the period, weekly is seven times daily, days until empty exist exactly when both average and stock are positive and bound the stock, and trend and last date come from the halves and the last sale |
| Consumption.AnalyzeIngredientConsumption | src/lib/consumption.ts:7-99 | the method computes the analysis of the specification function |
| Consumption.AnalyzeAllConsumption | src/lib/consumption.ts:104-128 | one analysis per ingredient, in order |
| Consumption.RiskOf | src/lib/consumption.ts:144-159 | high up to two days, medium from three to four, low beyond |
| Consumption.RiskBeforeIsStrictWeakOrder | src/lib/consumption.ts:160-167 | the rupture comparator is a strict weak order |
| Consumption.RuptureRiskSound | src/lib/consumption.ts:139-159 | exactly the analyses running out within six days are listed, each once, with its own risk level |
| Consumption.RuptureRiskOrdered | src/lib/consumption.ts:160-167 | the list runs from high to low risk and, within a level, by the days key ascending |
| Consumption.EmptyTodaySortsLast | src/lib/consumption.ts:166 | as written, stock that runs out today is sorted behind stock that lasts one more day |
| Consumption.RuptureRiskIntendedOrdered | src/lib/consumption.ts:160-167 | with a missing value alone read as 999, stock that runs out first comes first within a risk level |
| IngredientValidation.KeywordsAtLeastThree | src/lib/ingredient-validation.ts:11-33 | every non-food keyword is at least three characters long |
| IngredientValidation.FirstKeywordIn | src/lib/ingredient-validation.ts:187-194 | the first keyword in list order that the normalised name contains, or none exactly when it contains none |
| IngredientValidation.QuickValidate | src/lib/ingredient-validation.ts:180-206 | valid exactly when the trimmed lower-case name contains no keyword and has at least two characters; the reason names the first keyword found, else says the name is too short |
| IngredientValidation.OfflineValidate | src/lib/ingredient-validation.ts:44-71 | without an API key: too short first, then the first keyword found, else valid |
| IngredientValidation.OfflineAgreesWithQuick | src/lib/ingredient-validation.ts:44-71 | the two orders of the checks give the same answer, reason included |
| IngredientValidation.NormalizeIgnoresCaseAndSpace | src/lib/ingredient-validation.ts:184 | surrounding white space and lower-casing leave the normalised name unchanged |
| IngredientValidation.ValidationIgnoresCaseAndSpace | src/lib/ingredient-validation.ts:180-206 | surrounding white space and case change neither verdict |
| Money.TwoDigits | src/lib/utils.ts:80-82 | exactly two digits whose value is the number |
| Money.FormatCents | src/lib/shopping-lists.ts:114 | the rendering ends in a comma and two digits, after the digits of the whole part |
| Money.FormatCentsPieces | src/components/EditPriceDialog.tsx:39 | a non-negative amount renders as its whole part, a comma and its two-digit cents |
| Money.FormatCentsRoundTrip | src/components/EditPriceDialog.tsx:39 | reading a rendering back gives the amount: the rendering loses nothing |
| Reports.Quote | src/lib/reports.ts:68 | a cell is written between double quotes, its text unchanged |
| Reports.CsvLineSingle | src/lib/reports.ts:68 | a line of quoted cells holds a line break only if a cell does |
| Reports.CsvLines | src/lib/reports.ts:67-69 | when no cell holds a line break, the text splits back into the header line and then one line per row, in order |
| Reports.CsvCells | src/lib/reports.ts:68 | when no cell holds a comma, a line splits back into its quoted cells |
| Reports.StockStatus | src/lib/reports.ts:30-53 | the reassignments (OK, then low stock, then the state of a dashed expiry date) yield the status of the specification function |
| Reports.StatusOfCases | src/lib/reports.ts:30-53 | "Vencido" exactly when the dashed date has passed, "Vencendo em Breve" exactly when it is at most three days away, "Estoque Baixo" exactly when neither holds and quantity is at most the minimum, "OK" otherwise |
| Reports.StockRow | src/lib/reports.ts:55-63 | seven cells in header order, a missing category or expiry date as an empty cell |
| Reports.StockCsvLines | src/lib/reports.ts:26-69 | the stock CSV has the header line and then one line per ingredient, each the line of its ingredient |
| Reports.ExportStockDropsRows | src/lib/reports.ts:11-12 | as written, the export holds only the first twenty ingredients, so with more in stock lines are missing |
| Reports.ExportAllStockLines | src/lib/reports.ts:10-72 | over the whole stock, every ingredient has its line |
| Reports.LossLabel | src/lib/reports.ts:203 | waste is labelled "Desperdício", anything else "Vencido" |
| Reports.LossRow | src/lib/reports.ts:200-207 | six cells in header order: the date as rendered, the name ("Desconhecido" when missing), the kind label, the quantity as rendered, the unit and the note (empty when missing) |
| Reports.LossesCsvLines | src/lib/reports.ts:199-213 | the losses CSV has the header line and then one line per movement, in order |
| Reports.MonthlyConsumption | src/lib/reports.ts:249-271 | the loop's map yields, per ingredient in order of first movement, its name, unit and category and the sum of its quantities |
| Reports.AddConsumption | src/lib/reports.ts:255-270 | one step keeps every entry equal to its ingredient's first details and total |
| Reports.MoreConsumedIsStrictWeakOrder | src/lib/reports.ts:275 | ordering by decreasing total is a strict weak order |
| Reports.UnjoinedSkipped | src/lib/reports.ts:258 | a movement whose ingredient was not found changes nothing |
| Reports.RankedConsumptionSound | src/lib/reports.ts:249-275 | entries by decreasing total, one per ingredient with a joined movement, each total the sum of that ingredient's quantities |
| Reports.ConsumptionRow | src/lib/reports.ts:277-282 | four cells in header order: the name, the category, the total as rendered and the unit |
| Reports.MonthlyConsumptionCsvLines | src/lib/reports.ts:273-287 | the consumption CSV has the header line and then one line per ingredient, largest total first |
| Reports.ConsumptionCsvLines | src/lib/reports.ts:276-285 | the CSV of any list of entries is its header line followed by the line of each entry in turn |
| Utils.TranslateUnitCases | src/lib/utils.ts:11-20 | only "liters" and "units" change, to "litros" and "unidades"; every other unit, known or not, is shown as stored |
| Utils.TranslateUnitIdempotent | src/lib/utils.ts:11-20 | translating a translated unit changes nothing |
| Utils.DigitPrefix | src/lib/recipes.ts:189-191 | the longest prefix of decimal digits |
| Utils.ParseInt | src/lib/recipes.ts:189-191 | parseInt gives NaN exactly when no digit follows the leading blanks and optional sign |
| Utils.ParseIntDigits | src/lib/recipes.ts:189-191 | a string of digits reads as the number it denotes |
| Utils.DigitsValueLeadingZero | src/lib/utils.ts:32 | a leading zero, as in "02", does not change the value of a field |
| Utils.DaysInMonth | src/lib/utils.ts:32 | every month has 28 to 31 days, February 29 exactly in a leap year, the other months at least 30 |
| Utils.YearLength | src/lib/utils.ts:32 | in the day count of the Gregorian calendar, a leap year has 366 days and any other year 365 |
| Utils.RollDay | src/lib/utils.ts:32 | the result is a calendar day with the same day count as day d counted from the first of the month, so a day outside its month moves into the neighbouring months; a calendar day is kept as it is |
| Utils.DayCountInjective | src/lib/utils.ts:32 | two calendar days with the same day count are the same day, so the day count fixes the date `new Date(y, m, d)` lands on |
| Utils.MakeLocalDate | src/lib/utils.ts:32 | the local date constructor gives a valid date exactly when no argument is NaN |
| Utils.MakeLocalDateCalendarDay | src/lib/utils.ts:32 | a day of the calendar is made as it is given, at midnight |
| Utils.DashedFields | src/lib/utils.ts:30-31 | three fields of digits joined by dashes split back into the three |
| Utils.FormatDatePTDashed | src/lib/utils.ts:26-57 | a YYYY-MM-DD string of a calendar day renders as its day and the abbreviation of its month, the month field counted from 1 and the table from 0 |
| Utils.FormatDatePTIso | src/lib/utils.ts:26-57 | the same for a day written with two-digit month and day |
| Utils.FormatDatePTExample | src/lib/utils.ts:26-57 | "2024-02-05" renders as "5 de fev" |
| Utils.FormatDateTimePTClock | src/lib/utils.ts:62-83 | for a valid date the text ends in two digits of hours, a colon and two digits of minutes, which read back as the time of the date |
| Price.KeepPriceChars | src/components/EditPriceDialog.tsx:71 | only digits, commas and points remain |
| Price.SplitSeparators | src/components/EditPriceDialog.tsx:74 | one more part than separators, no part holding a separator, and the parts of sanitised text are digits |
| Price.Sanitise | src/components/EditPriceDialog.tsx:67-80 | the field holds only digits and at most one separator |
| Price.SanitiseFixes | src/components/EditPriceDialog.tsx:67-80 | text the sanitiser produced is left as it is |
| Price.SanitiseIdempotent | src/components/EditPriceDialog.tsx:67-80 | sanitising twice is sanitising once |
| Price.SanitiseKeepsDigits | src/components/EditPriceDialog.tsx:67-80 | the sanitiser drops no digit, adds none and keeps their order |
| Price.SanitiseManySeparators | src/components/EditPriceDialog.tsx:75-77 | with two separators or more, exactly one remains and it is a comma |
| Price.InitialText | src/components/EditPriceDialog.tsx:39 | the field opens empty exactly when there is no price or the price is zero |
| Price.ParseFloatDecimal | src/components/EditPriceDialog.tsx:48 | parseFloat reads a decimal written with a point as its value |
| Price.ParseFloatWhole | src/components/EditPriceDialog.tsx:48 | parseFloat reads a whole number as its value |
| Price.RemoveDots | src/components/EditPriceDialog.tsx:47 | no point remains |
| Price.SubmitNormalised | src/components/EditPriceDialog.tsx:48-57 | empty text removes the price; other text is refused with "Preço inválido" exactly when parseFloat reads NaN or a negative value, and otherwise the value read is saved |
| Price.HandleSubmitNoNumber | src/components/EditPriceDialog.tsx:47-57 | text without a digit is refused, unless it is made only of points, which the normalisation deletes, so the price is removed |
| Price.HandleSubmitNegative | src/components/EditPriceDialog.tsx:47-57 | a minus sign before a non-zero whole number is refused; minus zero is saved as zero |
| Price.HandleSubmitEmpty | src/components/EditPriceDialog.tsx:47-48 | an empty field removes the price |
| Price.InitialTextRoundTrip | src/components/EditPriceDialog.tsx:39-48 | opening the field on a price and submitting it unchanged saves the same price |
| Price.CentsDecimal | src/components/EditPriceDialog.tsx:39 | the whole part and the two digits of cents denote the amount |
| Price.ZeroPriceOpensEmpty | src/components/EditPriceDialog.tsx:39-48 | a price of zero opens as an empty field, so saving it unedited removes the price |
| Price.PointDroppedAsWritten | src/components/EditPriceDialog.tsx:47 | as written, a point the sanitiser accepts is dropped at submission: "ip.fp" saves the whole number of all its digits, "ip,fp" the decimal |
| Price.CommaDecimal | src/components/EditPriceDialog.tsx:47-48 | a decimal typed with a comma is saved as its value |
| Price.PointDroppedExample | src/components/EditPriceDialog.tsx:47-48 | "12.50" is saved as 1250 while "12,50" is saved as 12.5 |
| Price.NormaliseIntended | src/components/EditPriceDialog.tsx:47 | the corrected normalisation keeps the length and leaves no comma |
| Price.HandleSubmitIntendedDecimal | src/components/EditPriceDialog.tsx:43-57 | corrected: a decimal is saved as its value whichever separator it was typed with |
| Price.HandleSubmitIntendedAgrees | src/components/EditPriceDialog.tsx:43-57 | the correction changes nothing for text with a comma or without a separator |
| SignUp.StrengthCountsChecks | src/pages/SignUp.tsx:20-29 | the strength is the number of checks passed (length at least 8, an upper-case letter, a lower-case letter, a digit): at most four, four exactly when all pass, zero exactly when none does |
| SignUp.EmptyStrength | src/pages/SignUp.tsx:20-29 | the empty password has strength zero |
| SignUp.StrengthMonotone | src/pages/SignUp.tsx:20-29 | typing more characters never lowers the strength |
| SignUp.OnSubmit | src/pages/SignUp.tsx:34-41 | the form reports that the passwords differ exactly when they differ |
| SignUp.MismatchBeforeRemoteCall | src/pages/SignUp.tsx:34-54 | differing passwords are refused whatever the service would answer; otherwise the account is created exactly when the service reports no error |

## Left out

- Remote database calls: every Supabase query, insert and update is left out, because they are I/O against a hosted service. The rows a query returns are inputs. Where the code reads a missing result as `data || []` or only logs the error (the movements query of `getDashboardStats`), that result is an empty input. The CRUD wrappers (creating, updating and deleting ingredients, movements, lists, suppliers and transactions, and suppliers.ts, preferences.ts, restaurant.ts) are reduced to the record they build or the quantity they compute.
- Thrown errors: the two errors the business rules raise on their own become a `Result` failure that keeps the message. These are "Ingrediente não encontrado" in `Ingredients.CreateStockMovement` and the empty-stock message in `ShoppingLists.GenerateSmartShoppingList`. A failed query throws, which the members below do not model.
- `Dashboard.GetDashboardStats`, `Reports.LossesCsvLines`, `Reports.MonthlyConsumptionCsvLines`, `Consumption.AnalyzeIngredientConsumption`, `Consumption.AnalyzeAllConsumption`: in the source a failed query throws (src/lib/dashboard.ts:14-15, src/lib/reports.ts:195-196 and 244-245, src/lib/consumption.ts:34-35 and 114-115). These members have no failure path: they describe the run in which the queries succeed. The same holds for the other query-backed operations, such as `Financial.GetFinancialStats` and the pagination of `getIngredients`.
- The language model: src/lib/ai.ts, the AI branch of `validateIngredientName`, and the AI recipes that `getRecipeSuggestions` puts in front of the static ones. These are HTTP calls and the parsing of free-form model output. The model covers the result when no AI answer is used.
- Clocks and time zones: `new Date()`, millisecond arithmetic and time zones are left out. Dates are day numbers. For an expiry date, the day is the field `Domain.Expiry.day`, an input beside the stored text that the model does not tie to that text; other dates enter as day numbers or instants of their records. The range limits of JavaScript's `Date` are not modelled.
- `Utils.ParseInt`: does not model the `0x` prefix that `parseInt` reads as hexadecimal, because the application only passes it the decimal fields of a `YYYY-MM-DD` date.
- `Price.ParseFloatDecimal`, `Price.ParseFloatWhole`: exponents, `Infinity` and the rounding to a double are not modelled. These lemmas speak of plain digit strings read as exact values.
- Floating point: quantities and averages are exact reals, so rounding in sums and divisions is not modelled. The rendering of a number by `toString` and of a date by `toLocaleDateString` are function parameters of the reports. `toFixed(2)` beyond 1e21 is not modelled, because amounts are whole cents.
- `Recipes.StripAccents`, `Recipes.FoldChar`: `normalize('NFD')` followed by the removal of combining accents is modelled only for the accented Latin-1 letters, which lose their accent, and for combining accents, which are removed. Other characters are kept unchanged.
- Text collation: `localeCompare` and the order of date strings are modelled as code-point order.
- `IngredientValidation.QuickValidate`: `toLowerCase()` is modelled for the ASCII and Latin-1 capitals only, and `length` counts characters rather than UTF-16 code units. Other capitals are kept unchanged, including 'İ' (U+0130), which JavaScript lower-cases to two characters. A name made of one character outside the Basic Multilingual Plane, such as an emoji, counts 1 here and is refused as too short, while the source counts 2 and goes on to the keyword test.
- `IngredientValidation.OfflineValidate`: the same two differences as `QuickValidate`, since both read the name through `IngredientValidation.Normalize`.
- `Recipes.NormalizeIngredientName`, `Text.Lower`: lower-casing is limited to the ASCII and Latin-1 capitals, as above. Names that differ only in the case of other letters do not match here, while they match in the source.
- `SignUp.PasswordStrength`: the length is counted in characters rather than UTF-16 code units.
- `Utils.TranslateUnit`: the `unitMap[unit] || unit` lookup is modelled for the five own keys. Keys inherited from `Object.prototype` (such as `"constructor"`) are not modelled.
- The dashboard's `totalStockValue`: it is always `null` in the code, so it is not a field of the model.
- Downloads and rendering: `exportStockToPDF`, `downloadCSV`, the React pages and dialogs, the zod schemas, themes and the toast store are left out, because they are rendering and DOM work.
- Filters the database applies (by category, by search text, by expiry window in `getIngredients`) are not modelled. The rows are taken as the database returns them, and only the client-side low-stock filter and pagination are modelled.
- Code that is not visible: the functions that src/pages/Recipes.tsx imports from recipes.ts, and the shopping-list types missing from types.ts, are not part of this model.

## Findings

| source | as written | input that shows it | evidently intended | confidence | as-written member | corrected member |
|---|---|---|---|---|---|---|
| src/lib/ingredients.ts:62-92 | without the low-stock filter, the database returns page `page` of 20 rows, and the client then slices that page again at offset `(page - 1) * 20`; count and total pages describe the 20 rows only | 30 ingredients, page 2: the database returns rows 21-30 and the second slice keeps none, so the page is empty and the total is 1 page | slice once, and count the whole selection, so that row k appears on page k div 20 + 1 | not executed | Ingredients.LaterPagesEmpty | Ingredients.IntendedPagesCover |
| src/lib/consumption.ts:166 | `daysUntilEmpty \|\| 999` reads 0 as 999 | stock that runs out today (0 days) and stock that runs out tomorrow (1 day), both high risk: tomorrow's is listed first | `?? 999`, so that only a missing value is read as 999 and 0 sorts first | not executed | Consumption.EmptyTodaySortsLast | Consumption.RuptureRiskIntendedOrdered |
| src/components/EditPriceDialog.tsx:47 | the sanitiser accepts a point as the decimal separator, but submission deletes every point | "12.50" is saved as 1250, while "12,50" is saved as 12.5 | a single separator, point or comma, is the decimal separator | not executed | Price.PointDroppedAsWritten | Price.HandleSubmitIntendedDecimal |
| src/lib/reports.ts:11 | the stock export reads `getIngredients(restaurantId, 1, {})`, which is the first page of 20 rows | a restaurant with 21 ingredients gets a CSV of 20 rows | every ingredient in the stock has its line | not executed | Reports.ExportStockDropsRows | Reports.ExportAllStockLines |
