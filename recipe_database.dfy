/** The recipe table `RECIPES_DATABASE` of src/lib/recipes.ts, the source
    of every static suggestion. */
module RecipeDatabase {
  import opened Seqs
  import opened Domain
  import opened Recipes

  const RecipesDatabase: seq<RecipeTemplate> := [
    RecipeTemplate(
      "1", "Molho de Tomate",
      "Molho caseiro perfeito para massas e pratos diversos",
      ["tomate", "cebola", "alho", "azeite", "sal", "pimenta"],
      ["Corte os tomates em cubos pequenos",
        "Refogue a cebola e o alho no azeite até dourar",
        "Adicione os tomates e deixe cozinhar por 20 minutos",
        "Tempere com sal e pimenta a gosto",
        "Bata no liquidificador se desejar textura mais lisa"],
      30, 4),
    RecipeTemplate(
      "2", "Salada de Tomate e Cebola",
      "Salada fresca e rápida",
      ["tomate", "cebola", "azeite", "vinagre", "sal"],
      ["Corte os tomates em rodelas",
        "Corte a cebola em rodelas finas",
        "Tempere com azeite, vinagre e sal",
        "Sirva imediatamente"],
      10, 2),
    RecipeTemplate(
      "3", "Arroz com Frango",
      "Prato completo e saboroso",
      ["arroz", "frango", "cebola", "alho", "sal", "pimenta"],
      ["Tempere o frango com sal e pimenta",
        "Refogue a cebola e o alho",
        "Adicione o frango e deixe dourar",
        "Adicione o arroz e água",
        "Cozinhe até o arroz ficar macio"],
      45, 4),
    RecipeTemplate(
      "4", "Sopa de Legumes",
      "Sopa nutritiva e reconfortante",
      ["tomate", "cebola", "batata", "cenoura", "sal", "pimenta"],
      ["Corte todos os legumes em cubos",
        "Refogue a cebola até ficar transparente",
        "Adicione os legumes e cubra com água",
        "Cozinhe até os legumes ficarem macios",
        "Tempere com sal e pimenta"],
      40, 6),
    RecipeTemplate(
      "5", "Omelete",
      "Prato rápido e versátil",
      ["ovo", "tomate", "cebola", "sal", "pimenta"],
      ["Bata os ovos com sal e pimenta",
        "Corte o tomate e a cebola em cubos pequenos",
        "Aqueça uma frigideira com azeite",
        "Adicione os ovos batidos",
        "Quando começar a firmar, adicione os legumes",
        "Dobre ao meio e sirva"],
      10, 2),
    RecipeTemplate(
      "6", "Frango Grelhado",
      "Prato simples e saudável",
      ["frango", "sal", "pimenta", "alho", "azeite"],
      ["Tempere o frango com sal, pimenta e alho",
        "Deixe marinar por 30 minutos",
        "Grelhe em fogo médio até dourar",
        "Sirva com acompanhamentos"],
      30, 4),
    RecipeTemplate(
      "7", "Risotto de Legumes",
      "Risotto cremoso com legumes",
      ["arroz", "cebola", "alho", "tomate", "queijo", "manteiga"],
      ["Refogue a cebola e o alho",
        "Adicione o arroz e mexa até ficar translúcido",
        "Adicione o caldo quente aos poucos",
        "Quando quase pronto, adicione os legumes",
        "Finalize com queijo e manteiga"],
      35, 4),
    RecipeTemplate(
      "8", "Salada Completa",
      "Salada nutritiva com vários ingredientes",
      ["alface", "tomate", "cebola", "azeite", "vinagre", "sal"],
      ["Lave e corte todos os vegetais",
        "Misture em uma saladeira",
        "Tempere com azeite, vinagre e sal",
        "Sirva fresco"],
      15, 4)
  ]

  /** Every entry of the table lists five or six ingredients. */
  lemma DatabaseIngredientCounts()
    ensures forall t :: t in RecipesDatabase ==> 5 <= |t.ingredients| <= 6
  {
  }

  /** So a recipe suggested from the table has at least three of its
      ingredients in stock. */
  lemma SuggestionsMatchAtLeastThree(stock: seq<Ingredient>, maxResults: int, today: int)
    ensures forall r :: r in StaticSuggestions(RecipesDatabase, stock, maxResults, today) ==>
      |r.matchedIngredients| >= 3
  {
    DatabaseIngredientCounts();
    StaticSuggestionsSound(RecipesDatabase, stock, maxResults, today);
  }
}
