/** The recipe suggestion engine of src/lib/recipes.ts: it matches the
    ingredients of a fixed recipe table against the stock by name, refuses
    recipes that would need an expired ingredient, keeps recipes of which at
    least half the ingredients are in stock, scores them and sorts them.

    The suggestions the application asks of a language model and merges in
    front of these are not part of this model; what is modelled is the
    result the application returns when that request yields nothing. */
module Recipes {
  import opened Wrappers
  import opened Text
  import opened Seqs
  import opened Domain

  datatype Priority = High | Medium | Low

  /** `priorityOrder` of the sort: high 3, medium 2, low 1. */
  function Rank(p: Priority): int
  {
    match p
    case High => 3
    case Medium => 2
    case Low => 1
  }

  /** An entry of the recipe table. */
  datatype RecipeTemplate = RecipeTemplate(
    id: string,
    name: string,
    description: string,
    ingredients: seq<string>,
    instructions: seq<string>,
    cookingTime: int,
    servings: int)

  /** A suggested recipe: the table entry with its priority and the recipe
      ingredients found and not found in stock. */
  datatype Recipe = Recipe(
    template: RecipeTemplate,
    priority: Priority,
    matchedIngredients: seq<string>,
    missingIngredients: seq<string>)

  /** A suggestion while it is being ranked: it still carries the stock
      records that matched (`_matchedIngredientObjects`). */
  datatype Scored = Scored(recipe: Recipe, matchedObjects: seq<Ingredient>)

  // -----------------------------------------------------------------------
  // Name matching
  // -----------------------------------------------------------------------

  /** The characters accent removal changes: the combining diacritical
      marks U+0300..U+036F and the lower-case Latin-1 letters that carry an
      accent (all of U+00E0..U+00FF except æ, ð, ÷, ø and þ). */
  predicate Accented(c: char)
  {
    var n := c as int;
    (0x300 <= n <= 0x36F) ||
    (0xE0 <= n <= 0xFF && n != 0xE6 && n != 0xF0 && n != 0xF7 && n != 0xF8 && n != 0xFE)
  }

  /** A text in which accent removal has nothing left to do. */
  predicate NoAccents(s: string)
  {
    forall i :: 0 <= i < |s| ==> !Accented(s[i])
  }

  /** What the decomposition `normalize('NFD')` followed by the removal of
      the combining marks U+0300..U+036F leaves of one lower-case character:
      the base letter of an accented Latin-1 letter, nothing of a combining
      mark, the character itself otherwise. */
  function FoldChar(c: char): (r: string)
    ensures !Accented(c) ==> r == [c]
    ensures Accented(c) ==> |r| <= 1 && forall i :: 0 <= i < |r| ==> 'a' <= r[i] <= 'z'
    ensures Accented(c) && c as int <= 0xFF ==> |r| == 1
    ensures 0x300 <= c as int <= 0x36F ==> r == ""
  {
    var n := c as int;
    if 0x300 <= n <= 0x36F then ""
    else if 0xE0 <= n <= 0xE5 then "a"
    else if n == 0xE7 then "c"
    else if 0xE8 <= n <= 0xEB then "e"
    else if 0xEC <= n <= 0xEF then "i"
    else if n == 0xF1 then "n"
    else if 0xF2 <= n <= 0xF6 then "o"
    else if 0xF9 <= n <= 0xFC then "u"
    else if n == 0xFD || n == 0xFF then "y"
    else [c]
  }

  /** No accent survives; a text without accents is kept as it is; no
      capital letter is introduced. */
  function StripAccents(s: string): (r: string)
    ensures |r| <= |s|
    ensures NoAccents(r)
    ensures NoAccents(s) ==> r == s
    ensures Lower(s) == s ==> Lower(r) == r
  {
    if s == [] then ""
    else
      var r := FoldChar(s[0]) + StripAccents(s[1..]);
      assert Lower(s) == s ==> Lower(s[1..]) == s[1..] && LowerChar(s[0]) == s[0] by {
        if Lower(s) == s {
          assert Lower(s)[0] == s[0];
          assert Lower(s[1..]) == Lower(s)[1..];
        }
      }
      assert NoAccents(s) ==> NoAccents(s[1..]) by {
        if NoAccents(s) {
          forall i | 0 <= i < |s[1..]|
            ensures !Accented(s[1..][i])
          {
            assert s[1..][i] == s[i + 1];
          }
        }
      }
      LowerConcat(FoldChar(s[0]), StripAccents(s[1..]));
      r
  }

  /** Accent removal works character by character. */
  lemma {:induction false} StripAccentsConcat(a: string, b: string)
    ensures StripAccents(a + b) == StripAccents(a) + StripAccents(b)
  {
    if a == [] {
      assert a + b == b;
    } else {
      assert (a + b)[1..] == a[1..] + b;
      StripAccentsConcat(a[1..], b);
    }
  }

  /** Removing accents before lower-casing changes nothing that removing
      them after lower-casing does not. */
  lemma {:induction false} StripAccentsLower(s: string)
    ensures StripAccents(Lower(StripAccents(s))) == StripAccents(Lower(s))
  {
    if s != [] {
      var c, t := s[0], s[1..];
      assert s == [c] + t;
      LowerConcat(FoldChar(c), StripAccents(t));
      StripAccentsConcat(Lower(FoldChar(c)), Lower(StripAccents(t)));
      StripAccentsLower(t);
      LowerConcat([c], t);
      StripAccentsConcat(Lower([c]), Lower(t));
      assert StripAccents(Lower(FoldChar(c))) == StripAccents(Lower([c])) by {
        if Accented(c) {
          assert Lower([c]) == [c];
          assert Lower(FoldChar(c)) == FoldChar(c);
          assert StripAccents(FoldChar(c)) == FoldChar(c);
        }
      }
    }
  }

  /** `normalizeIngredientName`: lower case, accents removed, trimmed. The
      result has no capital letter, no accent and no white space at either
      end. */
  function NormalizeIngredientName(name: string): (r: string)
    ensures r == [] || (!IsWhiteSpace(r[0]) && !IsWhiteSpace(r[|r| - 1]))
    ensures Lower(r) == r
    ensures NoAccents(r)
  {
    LowerIdempotent(name);
    TrimKeepsPlain(StripAccents(Lower(name)));
    Trim(StripAccents(Lower(name)))
  }

  /** Trimming a text without capitals or accents leaves one. */
  lemma TrimKeepsPlain(s: string)
    requires Lower(s) == s && NoAccents(s)
    ensures Lower(Trim(s)) == Trim(s) && NoAccents(Trim(s))
  {
    TrimLower(s);
    var i, j := TrimBounds(s);
    assert forall k :: 0 <= k < |Trim(s)| ==> Trim(s)[k] == s[i + k];
  }

  /** Normalising is insensitive to case and accents, and normalising a
      normalised name changes nothing. */
  lemma NormalizeIngredientNameIgnores(name: string)
    ensures NormalizeIngredientName(Lower(name)) == NormalizeIngredientName(name)
    ensures NormalizeIngredientName(StripAccents(name)) == NormalizeIngredientName(name)
    ensures NormalizeIngredientName(NormalizeIngredientName(name)) == NormalizeIngredientName(name)
  {
    LowerIdempotent(name);
    StripAccentsLower(name);
    var r := NormalizeIngredientName(name);
    assert StripAccents(Lower(r)) == r;
    TrimIdempotent(StripAccents(Lower(name)));
  }

  /** A name with an accented letter normalises as the name spelt with the
      base letter instead, so the two match ("limão" and "limao", with
      `pre == "lim"`, `c == 'ã'` and `post == "o"`). */
  lemma AccentedSpellingMatches(pre: string, c: char, post: string)
    requires Accented(c)
    ensures NormalizeIngredientName(pre + [c] + post) == NormalizeIngredientName(pre + FoldChar(c) + post)
    ensures NamesMatch(pre + [c] + post, pre + FoldChar(c) + post)
  {
    var b := FoldChar(c);
    assert StripAccents(Lower([c])) == b by {
      assert Lower([c]) == [c];
      assert [c][1..] == [];
    }
    assert StripAccents(Lower(b)) == b by {
      assert Lower(b) == b;
      assert NoAccents(b);
    }
    LowerConcat(pre, [c]);
    LowerConcat(pre + [c], post);
    StripAccentsConcat(Lower(pre), Lower([c]));
    StripAccentsConcat(Lower(pre) + Lower([c]), Lower(post));
    LowerConcat(pre, b);
    LowerConcat(pre + b, post);
    StripAccentsConcat(Lower(pre), Lower(b));
    StripAccentsConcat(Lower(pre) + Lower(b), Lower(post));
    ContainsSelf(NormalizeIngredientName(pre + b + post));
  }

  /** The test of `isIngredientAvailable`: one normalised name includes the
      other. */
  predicate NamesMatch(recipeIngredient: string, ingredientName: string)
  {
    Overlap(NormalizeIngredientName(recipeIngredient), NormalizeIngredientName(ingredientName))
  }

  /** One of two normalised names includes the other. */
  predicate Overlap(a: string, b: string)
  {
    Contains(b, a) || Contains(a, b)
  }

  /** Matching is symmetric. */
  lemma NamesMatchSymmetric(x: string, y: string)
    ensures NamesMatch(x, y) == NamesMatch(y, x)
  {
  }

  /** A name matches every name it is a part of, whatever surrounds it
      (`"tomate"` in `"tomate cereja"`, `"Tomate"` in `"molho de tomate"`). */
  lemma NamesMatchInfix(x: string, pre: string, post: string)
    ensures NamesMatch(x, pre + x + post)
  {
    var p, m, q := StripAccents(Lower(pre)), StripAccents(Lower(x)), StripAccents(Lower(post));
    assert StripAccents(Lower(pre + x + post)) == p + m + q by {
      LowerConcat(pre, x);
      LowerConcat(pre + x, post);
      StripAccentsConcat(Lower(pre), Lower(x));
      StripAccentsConcat(Lower(pre) + Lower(x), Lower(post));
    }
    TrimContains(p, m, q);
  }

  /** `NamesMatch` as the test applied to each stock record. */
  function MatchesRecipeIngredient(recipeIngredient: string): Ingredient -> bool
  {
    (x: Ingredient) => NamesMatch(recipeIngredient, x.name)
  }

  /** The stock record `isIngredientAvailable` reports, if any: the first,
      in list order, whose name matches. */
  function FirstAvailable(recipeIngredient: string, stock: seq<Ingredient>): (r: Option<Ingredient>)
    ensures r.Some? ==> r.value in stock && NamesMatch(recipeIngredient, r.value.name)
    ensures r.None? <==> forall x :: x in stock ==> !NamesMatch(recipeIngredient, x.name)
  {
    match FirstIndex(stock, MatchesRecipeIngredient(recipeIngredient))
    case None => None
    case Some(k) => Some(stock[k])
  }

  /** `isIngredientAvailable`: the first record of `stock`, in list order,
      whose normalised name includes or is included in the normalised
      recipe ingredient; `None` (`available: false`) when there is none. */
  method IsIngredientAvailable(recipeIngredient: string, stock: seq<Ingredient>)
    returns (result: Option<Ingredient>)
    ensures result == FirstAvailable(recipeIngredient, stock)
  {
    ghost var p := MatchesRecipeIngredient(recipeIngredient);
    var normalized := NormalizeIngredientName(recipeIngredient);
    for i := 0 to |stock|
      invariant NoneBefore(stock, p, i)
    {
      var ingName := NormalizeIngredientName(stock[i].name);
      MatchesByName(recipeIngredient, stock[i]);
      if Overlap(normalized, ingName) {
        FirstIndexIs(stock, p, i);
        return Some(stock[i]);
      }
      NoneBeforeStep(stock, p, i);
    }
    FirstIndexNone(stock, p);
    return None;
  }

  /** The test of the loop is the match the specification uses. */
  lemma MatchesByName(recipeIngredient: string, x: Ingredient)
    ensures MatchesRecipeIngredient(recipeIngredient)(x) ==
      Overlap(NormalizeIngredientName(recipeIngredient), NormalizeIngredientName(x.name))
  {
  }

  /** The record `FirstAvailable` reports matches, and no earlier one does. */
  lemma FirstAvailableIsFirst(recipeIngredient: string, stock: seq<Ingredient>)
    ensures var r := FirstAvailable(recipeIngredient, stock);
      r.Some? ==>
        exists k :: 0 <= k < |stock| && stock[k] == r.value
          && NamesMatch(recipeIngredient, stock[k].name)
          && forall j :: 0 <= j < k ==> !NamesMatch(recipeIngredient, stock[j].name)
  {
    var p := MatchesRecipeIngredient(recipeIngredient);
    match FirstIndex(stock, p)
    case None =>
    case Some(k) =>
      assert p(stock[k]) && forall j :: 0 <= j < k ==> !p(stock[j]);
  }

  // -----------------------------------------------------------------------
  // Expiry
  // -----------------------------------------------------------------------

  /** `isIngredientExpired`: false without a date or when the date does not
      split into three dashed fields; otherwise true exactly when the expiry
      day is strictly before today. */
  function IsIngredientExpired(ing: Ingredient, today: int): (expired: bool)
    ensures !HasDate(ing.expiry) || !IsDashed(ing.expiry) ==> !expired
    ensures HasDate(ing.expiry) && IsDashed(ing.expiry) && ing.expiry.day.Some? ==>
      (expired <==> ing.expiry.day.value < today)
    ensures ing.expiry.day.None? ==> !expired
  {
    match DashedDaysUntil(ing.expiry, today)
    case None => false
    case Some(daysDiff) => daysDiff < 0
  }

  /** `getExpiredIngredients`: exactly the expired records, in input order. */
  function GetExpiredIngredients(stock: seq<Ingredient>, today: int): (r: seq<Ingredient>)
    ensures forall x :: x in r ==> x in stock && IsIngredientExpired(x, today)
    ensures forall x :: x in stock && IsIngredientExpired(x, today) ==> x in r
  {
    Filter(stock, x => IsIngredientExpired(x, today))
  }

  /** The expired records keep their input order: the result for a
      concatenation is the concatenation of the results. */
  lemma GetExpiredIngredientsInOrder(a: seq<Ingredient>, b: seq<Ingredient>, today: int)
    ensures GetExpiredIngredients(a + b, today)
         == GetExpiredIngredients(a, today) + GetExpiredIngredients(b, today)
  {
    FilterConcat(a, b, x => IsIngredientExpired(x, today));
  }

  // -----------------------------------------------------------------------
  // Priority
  // -----------------------------------------------------------------------

  /** The expiry window of `calculatePriority` (its `expiringThreshold`
      default, which every caller keeps) and of the expiring-ingredient
      filters: three days. */
  const ExpiringThreshold := 3

  /** An ingredient expiring within `threshold` days and not yet expired,
      its date read by the route that accepts any date string. */
  predicate ExpiringWithin(ing: Ingredient, today: int, threshold: int)
  {
    match DaysUntil(ing.expiry, today)
    case None => false
    case Some(d) => 0 <= d <= threshold
  }

  /** `ing.quantity > ing.min_stock * 2` */
  predicate HighStock(ing: Ingredient)
  {
    ing.quantity > ing.minStock * 2.0
  }

  function IsExpiringSoon(today: int): Ingredient -> bool
  {
    (ing: Ingredient) => ExpiringWithin(ing, today, ExpiringThreshold)
  }

  function IsHighStock(): Ingredient -> bool
  {
    (ing: Ingredient) => HighStock(ing)
  }

  /** The priority of a recipe from the counts of its matched ingredients
      that expire soon and that are well stocked. */
  function PriorityFromCounts(expiringCount: nat, highStockCount: nat, matchedCount: nat): (p: Priority)
    ensures p == High <==> expiringCount >= 1
    ensures p == Medium <==>
      expiringCount == 0 && (highStockCount >= 2 || (highStockCount == 1 && matchedCount >= 3))
  {
    if expiringCount >= 2 then High
    else if expiringCount == 1 then High
    else if highStockCount >= 2 then Medium
    else if highStockCount == 1 && matchedCount >= 3 then Medium
    else Low
  }

  /** The priority `calculatePriority` gives to a list of matched records. */
  function PriorityOf(matched: seq<Ingredient>, today: int): Priority
  {
    PriorityFromCounts(Count(matched, IsExpiringSoon(today)), Count(matched, IsHighStock()), |matched|)
  }

  /** `calculatePriority` with its default threshold: counts the matched
      records that expire within three days (not those already expired)
      and those holding more than twice their minimum stock. */
  method CalculatePriority(matched: seq<Ingredient>, today: int) returns (p: Priority)
    ensures p == PriorityOf(matched, today)
  {
    var expiringCount := 0;
    var highStockCount := 0;
    for i := 0 to |matched|
      invariant expiringCount == Count(matched[..i], IsExpiringSoon(today))
      invariant highStockCount == Count(matched[..i], IsHighStock())
    {
      CountPrefixStep(matched, i, IsExpiringSoon(today));
      CountPrefixStep(matched, i, IsHighStock());
      var ing := matched[i];
      if HasDate(ing.expiry) {
        match DaysUntil(ing.expiry, today)
        case Some(daysUntilExpiry) =>
          if daysUntilExpiry >= 0 && daysUntilExpiry <= ExpiringThreshold {
            expiringCount := expiringCount + 1;
          }
        case None =>
      }
      if ing.quantity > ing.minStock * 2.0 {
        highStockCount := highStockCount + 1;
      }
    }
    assert matched[..|matched|] == matched;
    if expiringCount >= 2 {
      return High;
    }
    if expiringCount == 1 {
      return High;
    }
    if highStockCount >= 2 {
      return Medium;
    }
    if highStockCount == 1 && |matched| >= 3 {
      return Medium;
    }
    return Low;
  }

  /** A recipe is high priority exactly when one of its matched records
      expires within three days. */
  lemma PriorityHighIff(matched: seq<Ingredient>, today: int)
    ensures PriorityOf(matched, today) == High <==>
      exists x :: x in matched && ExpiringWithin(x, today, ExpiringThreshold)
  {
    CountPositive(matched, IsExpiringSoon(today));
  }

  /** Otherwise it is medium priority exactly when at least two matched
      records are well stocked, or one is and at least three matched. */
  lemma PriorityMediumIff(matched: seq<Ingredient>, today: int)
    ensures PriorityOf(matched, today) == Medium <==>
      (forall x :: x in matched ==> !ExpiringWithin(x, today, ExpiringThreshold)) &&
      (Count(matched, IsHighStock()) >= 2 ||
       (Count(matched, IsHighStock()) == 1 && |matched| >= 3))
  {
    CountPositive(matched, IsExpiringSoon(today));
  }

  /** Records already past their expiry day never raise a recipe to high
      priority. */
  lemma ExpiredNeverCounted(matched: seq<Ingredient>, today: int)
    requires forall x :: x in matched ==> x.expiry.day.Some? && x.expiry.day.value < today
    ensures PriorityOf(matched, today) != High
  {
    PriorityHighIff(matched, today);
  }

  // -----------------------------------------------------------------------
  // Static suggestions
  // -----------------------------------------------------------------------

  /** The stock the engine may cook with: every record not expired. */
  function ValidIngredients(stock: seq<Ingredient>, today: int): (r: seq<Ingredient>)
    ensures forall x :: x in r <==> x in stock && !IsIngredientExpired(x, today)
  {
    Filter(stock, x => !IsIngredientExpired(x, today))
  }

  /** A recipe ingredient found among the non-expired records. */
  function IsAvailableIn(valid: seq<Ingredient>): string -> bool
  {
    (ri: string) => FirstAvailable(ri, valid).Some?
  }

  function IsMissingIn(valid: seq<Ingredient>): string -> bool
  {
    (ri: string) => FirstAvailable(ri, valid).None?
  }

  /** A recipe ingredient that no non-expired record matches but whose first
      match in the whole stock is expired: a recipe needing it is refused. */
  predicate Blocking(ri: string, stock: seq<Ingredient>, today: int)
  {
    FirstAvailable(ri, ValidIngredients(stock, today)).None? &&
    match FirstAvailable(ri, stock)
    case None => false
    case Some(ing) => IsIngredientExpired(ing, today)
  }

  function IsBlocking(stock: seq<Ingredient>, today: int): string -> bool
  {
    (ri: string) => Blocking(ri, stock, today)
  }

  /** The stock records matched by the available recipe ingredients, in
      recipe order. */
  function MatchedObjects(ris: seq<string>, valid: seq<Ingredient>): (r: seq<Ingredient>)
    ensures |r| == |Filter(ris, IsAvailableIn(valid))|
    ensures forall x :: x in r ==> x in valid
  {
    if ris == [] then []
    else
      var init, last := ris[..|ris| - 1], ris[|ris| - 1];
      AvailableFilterStep(ris, valid);
      MatchedObjects(init, valid) +
        match FirstAvailable(last, valid)
        case Some(ing) => [ing]
        case None => []
  }

  /** The available names of a list are those of all but its last element,
      then the last one if it is available. */
  lemma AvailableFilterStep(ris: seq<string>, valid: seq<Ingredient>)
    requires ris != []
    ensures |Filter(ris, IsAvailableIn(valid))| ==
      |Filter(ris[..|ris| - 1], IsAvailableIn(valid))| + if FirstAvailable(ris[|ris| - 1], valid).Some? then 1 else 0
  {
    FilterPrefixStep(ris, |ris| - 1, IsAvailableIn(valid));
    assert ris[..|ris| - 1 + 1] == ris;
  }

  lemma MatchedObjectsPrefixStep(ris: seq<string>, i: nat, valid: seq<Ingredient>)
    requires i < |ris|
    ensures MatchedObjects(ris[..i + 1], valid) == MatchedObjects(ris[..i], valid) +
      match FirstAvailable(ris[i], valid)
      case Some(ing) => [ing]
      case None => []
  {
    assert ris[..i + 1][..i] == ris[..i];
  }

  /** The result of the inner loop over one recipe's ingredients. */
  datatype Evaluation = Evaluation(
    blocked: bool,
    matchedObjects: seq<Ingredient>,
    matchedNames: seq<string>,
    missingNames: seq<string>)

  /** The inner loop of `getRecipeSuggestions`: sorts the ingredients of
      one recipe into matched and missing, and stops at the first that only
      an expired record matches. */
  method EvaluateRecipe(ris: seq<string>, stock: seq<Ingredient>, valid: seq<Ingredient>, today: int)
    returns (e: Evaluation)
    requires valid == ValidIngredients(stock, today)
    ensures e.blocked <==> Count(ris, IsBlocking(stock, today)) > 0
    ensures !e.blocked ==>
      e.matchedObjects == MatchedObjects(ris, valid) &&
      e.matchedNames == Filter(ris, IsAvailableIn(valid)) &&
      e.missingNames == Filter(ris, IsMissingIn(valid))
  {
    var matchedIngredients: seq<Ingredient> := [];
    var matchedNames: seq<string> := [];
    var missingIngredients: seq<string> := [];
    for i := 0 to |ris|
      invariant Count(ris[..i], IsBlocking(stock, today)) == 0
      invariant matchedIngredients == MatchedObjects(ris[..i], valid)
      invariant matchedNames == Filter(ris[..i], IsAvailableIn(valid))
      invariant missingIngredients == Filter(ris[..i], IsMissingIn(valid))
    {
      CountPrefixStep(ris, i, IsBlocking(stock, today));
      MatchedObjectsPrefixStep(ris, i, valid);
      FilterPrefixStep(ris, i, IsAvailableIn(valid));
      FilterPrefixStep(ris, i, IsMissingIn(valid));
      var recipeIngredient := ris[i];
      var result := IsIngredientAvailable(recipeIngredient, valid);
      if result.Some? {
        matchedIngredients := matchedIngredients + [result.value];
        matchedNames := matchedNames + [recipeIngredient];
      } else {
        var expiredResult := IsIngredientAvailable(recipeIngredient, stock);
        if expiredResult.Some? && IsIngredientExpired(expiredResult.value, today) {
          assert IsBlocking(stock, today)(ris[i]);
          CountPositive(ris, IsBlocking(stock, today));
          return Evaluation(true, matchedIngredients, matchedNames, missingIngredients);
        }
        missingIngredients := missingIngredients + [recipeIngredient];
      }
    }
    assert ris[..|ris|] == ris;
    return Evaluation(false, matchedIngredients, matchedNames, missingIngredients);
  }

  /** `matchRatio >= 0.5`: at least half the recipe's ingredients matched.
      With no ingredients the ratio is `0 / 0`, NaN, and the test fails. */
  predicate HalfMatched(matchedCount: nat, ingredientCount: nat)
  {
    ingredientCount > 0 && (matchedCount as real) / (ingredientCount as real) >= 0.5
  }

  lemma HalfMatchedIff(matchedCount: nat, ingredientCount: nat)
    ensures HalfMatched(matchedCount, ingredientCount) <==>
      ingredientCount > 0 && 2 * matchedCount >= ingredientCount
  {
    if ingredientCount > 0 {
      var q := (matchedCount as real) / (ingredientCount as real);
      assert q * (ingredientCount as real) == matchedCount as real;
    }
  }

  /** The suggestion a table entry yields, if any. */
  function Candidate(template: RecipeTemplate, stock: seq<Ingredient>, today: int): Option<Scored>
  {
    var ris := template.ingredients;
    var valid := ValidIngredients(stock, today);
    if Count(ris, IsBlocking(stock, today)) > 0 then None
    else
      var matched := Filter(ris, IsAvailableIn(valid));
      if !HalfMatched(|matched|, |ris|) then None
      else
        var objects := MatchedObjects(ris, valid);
        Some(Scored(
          Recipe(template, PriorityOf(objects, today), matched, Filter(ris, IsMissingIn(valid))),
          objects))
  }

  /** The suggestions the table yields, in table order. */
  function Candidates(db: seq<RecipeTemplate>, stock: seq<Ingredient>, today: int): (r: seq<Scored>)
    ensures |r| <= |db|
  {
    if db == [] then []
    else
      Candidates(db[..|db| - 1], stock, today) +
        match Candidate(db[|db| - 1], stock, today)
        case Some(c) => [c]
        case None => []
  }

  lemma CandidatesPrefixStep(db: seq<RecipeTemplate>, i: nat, stock: seq<Ingredient>, today: int)
    requires i < |db|
    ensures Candidates(db[..i + 1], stock, today) == Candidates(db[..i], stock, today) +
      match Candidate(db[i], stock, today)
      case Some(c) => [c]
      case None => []
  {
    assert db[..i + 1][..i] == db[..i];
  }

  /** What a matched record adds to the stock score: its stock over its
      minimum when a minimum is set, otherwise its quantity. */
  function IngredientScore(ing: Ingredient): real
  {
    if ing.minStock > 0.0 then ing.quantity / ing.minStock else ing.quantity
  }

  /** `getStockScore` */
  function StockScore(s: Scored): real
  {
    SumOf(s.matchedObjects, IngredientScore)
  }

  /** The comparator of the sort, read as "strictly before": higher
      priority first, then more matched ingredients, then a higher stock
      score. */
  predicate RecipeBefore(a: Scored, b: Scored)
  {
    if Rank(a.recipe.priority) != Rank(b.recipe.priority) then
      Rank(a.recipe.priority) > Rank(b.recipe.priority)
    else if |a.recipe.matchedIngredients| != |b.recipe.matchedIngredients| then
      |a.recipe.matchedIngredients| > |b.recipe.matchedIngredients|
    else StockScore(a) > StockScore(b)
  }

  /** The comparator is consistent, so the sort is well defined. */
  lemma RecipeBeforeIsStrictWeakOrder()
    ensures StrictWeakOrder(RecipeBefore)
  {
    forall a, b, c | !RecipeBefore(a, b) && !RecipeBefore(b, c)
      ensures !RecipeBefore(a, c)
    {
    }
  }

  function Sorted(candidates: seq<Scored>): (r: seq<Scored>)
    ensures |r| == |candidates|
    ensures multiset(r) == multiset(candidates)
    ensures SortedBy(r, RecipeBefore)
  {
    RecipeBeforeIsStrictWeakOrder();
    SortBy(candidates, RecipeBefore)
  }

  /** Drops `_matchedIngredientObjects`. */
  function Recipes(scored: seq<Scored>): (r: seq<Recipe>)
    ensures |r| == |scored|
    ensures forall k :: 0 <= k < |r| ==> r[k] == scored[k].recipe
  {
    seq(|scored|, k requires 0 <= k < |scored| => scored[k].recipe)
  }

  /** The static suggestions: the table entries that qualify, sorted, then
      the first `maxResults`. */
  function StaticSuggestions(db: seq<RecipeTemplate>, stock: seq<Ingredient>, maxResults: int, today: int): seq<Recipe>
  {
    Take(Recipes(Sorted(Candidates(db, stock, today))), maxResults)
  }

  /** `getRecipeSuggestions` when no suggestion comes from the language
      model: the static suggestions. */
  method GetRecipeSuggestions(db: seq<RecipeTemplate>, stock: seq<Ingredient>, maxResults: int, today: int)
    returns (r: seq<Recipe>)
    ensures r == StaticSuggestions(db, stock, maxResults, today)
  {
    var suggestions: seq<Scored> := [];
    var validIngredients := ValidIngredients(stock, today);
    for i := 0 to |db|
      invariant suggestions == Candidates(db[..i], stock, today)
    {
      CandidatesPrefixStep(db, i, stock, today);
      var candidate := EvaluateCandidate(db[i], stock, validIngredients, today);
      if candidate.Some? {
        suggestions := suggestions + [candidate.value];
      }
    }
    assert db[..|db|] == db;
    r := Take(Recipes(Sorted(suggestions)), maxResults);
  }

  /** One turn of the outer loop of `getRecipeSuggestions`: the suggestion
      the table entry yields, if any. */
  method EvaluateCandidate(recipe: RecipeTemplate, stock: seq<Ingredient>, valid: seq<Ingredient>, today: int)
    returns (candidate: Option<Scored>)
    requires valid == ValidIngredients(stock, today)
    ensures candidate == Candidate(recipe, stock, today)
  {
    var e := EvaluateRecipe(recipe.ingredients, stock, valid, today);
    if e.blocked {
      return None;
    }
    HalfMatchedIff(|e.matchedObjects|, |recipe.ingredients|);
    if !HalfMatched(|e.matchedObjects|, |recipe.ingredients|) {
      return None;
    }
    var priority := CalculatePriority(e.matchedObjects, today);
    return Some(Scored(Recipe(recipe, priority, e.matchedNames, e.missingNames), e.matchedObjects));
  }

  // -----------------------------------------------------------------------
  // Properties of the static suggestions
  // -----------------------------------------------------------------------

  /** What holds of every suggestion built from a table entry: the entry
      needs no expired ingredient, at least half its ingredients matched,
      each ingredient is matched or missing according to the non-expired
      stock, and the priority is that of the matched records. */
  ghost predicate Qualifies(c: Scored, stock: seq<Ingredient>, today: int)
  {
    var ris := c.recipe.template.ingredients;
    var valid := ValidIngredients(stock, today);
    Count(ris, IsBlocking(stock, today)) == 0 &&
    HalfMatched(|c.recipe.matchedIngredients|, |ris|) &&
    c.recipe.matchedIngredients == Filter(ris, IsAvailableIn(valid)) &&
    c.recipe.missingIngredients == Filter(ris, IsMissingIn(valid)) &&
    c.matchedObjects == MatchedObjects(ris, valid) &&
    c.recipe.priority == PriorityOf(c.matchedObjects, today)
  }

  /** The candidates are exactly the suggestions of the table entries that
      yield one. */
  lemma {:induction false} CandidatesSound(db: seq<RecipeTemplate>, stock: seq<Ingredient>, today: int)
    ensures forall c :: c in Candidates(db, stock, today) ==>
      c.recipe.template in db && Qualifies(c, stock, today)
    ensures forall t :: t in db && Candidate(t, stock, today).Some? ==>
      Candidate(t, stock, today).value in Candidates(db, stock, today)
  {
    if db != [] {
      var init, last := db[..|db| - 1], db[|db| - 1];
      CandidatesSound(init, stock, today);
      assert db == init + [last];
      var tail := match Candidate(last, stock, today) case Some(c) => [c] case None => [];
      assert Candidates(db, stock, today) == Candidates(init, stock, today) + tail;
      CandidateQualifies(last, stock, today);
      forall c | c in Candidates(db, stock, today)
        ensures c.recipe.template in db && Qualifies(c, stock, today)
      {
        if c !in Candidates(init, stock, today) {
          assert c in tail;
        }
      }
      forall t | t in db && Candidate(t, stock, today).Some?
        ensures Candidate(t, stock, today).value in Candidates(db, stock, today)
      {
        if t != last {
          assert t in init;
        }
      }
    }
  }

  /** The suggestion a table entry yields is built from that entry and
      qualifies. */
  lemma CandidateQualifies(t: RecipeTemplate, stock: seq<Ingredient>, today: int)
    ensures Candidate(t, stock, today).Some? ==>
      Candidate(t, stock, today).value.recipe.template == t && Qualifies(Candidate(t, stock, today).value, stock, today)
  {
  }

  /** Every static suggestion comes from a candidate. */
  lemma SuggestionFromCandidate(db: seq<RecipeTemplate>, stock: seq<Ingredient>, maxResults: int, today: int, r: Recipe)
    requires r in StaticSuggestions(db, stock, maxResults, today)
    ensures exists c :: c in Candidates(db, stock, today) && c.recipe == r
  {
    var cands := Candidates(db, stock, today);
    var sorted := Sorted(cands);
    var all := Recipes(sorted);
    var k :| 0 <= k < |StaticSuggestions(db, stock, maxResults, today)| &&
      StaticSuggestions(db, stock, maxResults, today)[k] == r;
    assert all[k] == r;
    assert sorted[k] in multiset(cands);
  }

  /** Every static suggestion is a table entry at least half of whose
      ingredients are in non-expired stock, that needs no expired
      ingredient, whose ingredients are split exactly between the matched
      and the missing lists, and whose priority is that of its matched
      records. */
  lemma StaticSuggestionsSound(db: seq<RecipeTemplate>, stock: seq<Ingredient>, maxResults: int, today: int)
    ensures forall r :: r in StaticSuggestions(db, stock, maxResults, today) ==>
      var ris := r.template.ingredients;
      var valid := ValidIngredients(stock, today);
      r.template in db &&
      |ris| > 0 && 2 * |r.matchedIngredients| >= |ris| &&
      (forall ri :: ri in ris ==> !Blocking(ri, stock, today)) &&
      (forall ri :: ri in ris ==>
        (ri in r.matchedIngredients <==> FirstAvailable(ri, valid).Some?) &&
        (ri in r.missingIngredients <==> FirstAvailable(ri, valid).None?)) &&
      |r.matchedIngredients| + |r.missingIngredients| == |ris| &&
      r.priority == PriorityOf(MatchedObjects(ris, valid), today)
  {
    CandidatesSound(db, stock, today);
    forall r | r in StaticSuggestions(db, stock, maxResults, today)
      ensures var ris := r.template.ingredients;
        var valid := ValidIngredients(stock, today);
        r.template in db &&
        |ris| > 0 && 2 * |r.matchedIngredients| >= |ris| &&
        (forall ri :: ri in ris ==> !Blocking(ri, stock, today)) &&
        (forall ri :: ri in ris ==>
          (ri in r.matchedIngredients <==> FirstAvailable(ri, valid).Some?) &&
          (ri in r.missingIngredients <==> FirstAvailable(ri, valid).None?)) &&
        |r.matchedIngredients| + |r.missingIngredients| == |ris| &&
        r.priority == PriorityOf(MatchedObjects(ris, valid), today)
    {
      SuggestionFromCandidate(db, stock, maxResults, today, r);
      var c :| c in Candidates(db, stock, today) && c.recipe == r;
      var ris := r.template.ingredients;
      var valid := ValidIngredients(stock, today);
      HalfMatchedIff(|r.matchedIngredients|, |ris|);
      CountPositive(ris, IsBlocking(stock, today));
      FilterPartition(ris, IsAvailableIn(valid), IsMissingIn(valid));
    }
  }

  /** The static suggestions come in order of priority, and within one
      priority in decreasing order of matched ingredients; there are at
      most `maxResults` of them. */
  lemma StaticSuggestionsOrdered(db: seq<RecipeTemplate>, stock: seq<Ingredient>, maxResults: int, today: int)
    ensures var r := StaticSuggestions(db, stock, maxResults, today);
      forall i, j :: 0 <= i < j < |r| ==>
        Rank(r[i].priority) >= Rank(r[j].priority) &&
        (r[i].priority == r[j].priority ==> |r[i].matchedIngredients| >= |r[j].matchedIngredients|)
    ensures 0 <= maxResults ==> |StaticSuggestions(db, stock, maxResults, today)| <= maxResults
  {
    var sorted := Sorted(Candidates(db, stock, today));
    var r := StaticSuggestions(db, stock, maxResults, today);
    forall i, j | 0 <= i < j < |r|
      ensures Rank(r[i].priority) >= Rank(r[j].priority) &&
        (r[i].priority == r[j].priority ==> |r[i].matchedIngredients| >= |r[j].matchedIngredients|)
    {
      assert r[i] == sorted[i].recipe && r[j] == sorted[j].recipe;
      assert !RecipeBefore(sorted[j], sorted[i]);
    }
  }

  // -----------------------------------------------------------------------
  // Recipes for expiring ingredients
  // -----------------------------------------------------------------------

  /** The records that expire within three days and have not expired. */
  function ExpiringIngredients(stock: seq<Ingredient>, today: int): (r: seq<Ingredient>)
    ensures forall x :: x in r ==> x in stock && ExpiringWithin(x, today, ExpiringThreshold)
    ensures forall x :: x in stock && ExpiringWithin(x, today, ExpiringThreshold) ==> x in r
  {
    Filter(stock, IsExpiringSoon(today))
  }

  /** A suggestion one of whose matched ingredients matches, by name, one
      of the given records. */
  predicate UsesAnyOf(r: Recipe, records: seq<Ingredient>)
  {
    exists ri, x :: ri in r.matchedIngredients && x in records && NamesMatch(ri, x.name)
  }

  function IsUsingAnyOf(records: seq<Ingredient>): Recipe -> bool
  {
    (r: Recipe) => UsesAnyOf(r, records)
  }

  /** The result of `getRecipesForExpiringIngredients`. */
  function ExpiringSuggestions(db: seq<RecipeTemplate>, stock: seq<Ingredient>, maxResults: int, today: int): seq<Recipe>
  {
    var expiring := ExpiringIngredients(stock, today);
    if |expiring| == 0 then []
    else Take(Filter(StaticSuggestions(db, stock, maxResults * 2, today), IsUsingAnyOf(expiring)), maxResults)
  }

  /** `getRecipesForExpiringIngredients`: nothing when no record expires
      within three days; otherwise the suggestions for twice as many
      results, kept when they use such a record, cut to `maxResults`. */
  method GetRecipesForExpiringIngredients(db: seq<RecipeTemplate>, stock: seq<Ingredient>, maxResults: int, today: int)
    returns (r: seq<Recipe>)
    ensures r == ExpiringSuggestions(db, stock, maxResults, today)
  {
    var expiringIngredients := ExpiringIngredients(stock, today);
    if |expiringIngredients| == 0 {
      return [];
    }
    var suggestions := GetRecipeSuggestions(db, stock, maxResults * 2, today);
    r := Take(Filter(suggestions, IsUsingAnyOf(expiringIngredients)), maxResults);
  }

  /** No suggestion when nothing expires within three days; otherwise at
      most `maxResults` suggestions, each a static suggestion that uses an
      ingredient expiring within three days. */
  lemma ExpiringSuggestionsSound(db: seq<RecipeTemplate>, stock: seq<Ingredient>, maxResults: int, today: int)
    ensures (forall x :: x in stock ==> !ExpiringWithin(x, today, ExpiringThreshold)) ==>
      ExpiringSuggestions(db, stock, maxResults, today) == []
    ensures 0 <= maxResults ==> |ExpiringSuggestions(db, stock, maxResults, today)| <= maxResults
    ensures forall r :: r in ExpiringSuggestions(db, stock, maxResults, today) ==>
      r in StaticSuggestions(db, stock, maxResults * 2, today) &&
      exists ri, x :: ri in r.matchedIngredients && x in stock &&
        ExpiringWithin(x, today, ExpiringThreshold) && NamesMatch(ri, x.name)
  {
    var expiring := ExpiringIngredients(stock, today);
    if |expiring| > 0 {
      assert expiring[0] in expiring;
      var kept := Filter(StaticSuggestions(db, stock, maxResults * 2, today), IsUsingAnyOf(expiring));
      forall r | r in ExpiringSuggestions(db, stock, maxResults, today)
        ensures r in StaticSuggestions(db, stock, maxResults * 2, today) &&
          exists ri, x :: ri in r.matchedIngredients && x in stock &&
            ExpiringWithin(x, today, ExpiringThreshold) && NamesMatch(ri, x.name)
      {
        assert r in kept;
        assert UsesAnyOf(r, expiring);
      }
    }
  }

  /** The suggestions for expiring ingredients keep the order of the static
      suggestions, and every static suggestion that uses such an ingredient
      is kept unless `maxResults` of them come before it. */
  lemma ExpiringSuggestionsComplete(db: seq<RecipeTemplate>, stock: seq<Ingredient>, maxResults: int, today: int)
    ensures IsSubsequence(ExpiringSuggestions(db, stock, maxResults, today),
                          StaticSuggestions(db, stock, maxResults * 2, today))
    ensures var all, expiring := StaticSuggestions(db, stock, maxResults * 2, today), ExpiringIngredients(stock, today);
      forall k ::
        (0 <= k < |all| && UsesAnyOf(all[k], expiring) && Count(all[..k], IsUsingAnyOf(expiring)) < maxResults) ==>
        all[k] in ExpiringSuggestions(db, stock, maxResults, today)
  {
    var all, expiring := StaticSuggestions(db, stock, maxResults * 2, today), ExpiringIngredients(stock, today);
    if |expiring| > 0 {
      TakeFilter(all, IsUsingAnyOf(expiring), maxResults);
    } else {
      forall k | 0 <= k < |all| && UsesAnyOf(all[k], expiring)
        ensures false
      {
      }
    }
  }
}
