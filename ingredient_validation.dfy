/** The offline rules of src/lib/ingredient-validation.ts: the keyword
    check that decides whether a name denotes something edible when the
    language model is not consulted. */
module IngredientValidation {
  import opened Wrappers
  import opened Seqs
  import opened Text

  /** Words that mark a name as something other than food, in the order
      they are tried. */
  const NonFoodKeywords: seq<string> :=
    KeywordGroup1 + KeywordGroup2 + KeywordGroup3 + KeywordGroup4 + KeywordGroup5 + KeywordGroup6

  /** Keywords for furniture, kitchen and the house. */
  const KeywordGroup1: seq<string> := [
    "cadeira", "mesa", "garfo", "faca", "prato", "copo", "panela", "frigideira",
    "geladeira", "fogão", "microondas", "liquidificador", "batedeira", "forno", "pia",
    "torneira", "lixeira", "balcão", "armário", "gaveta", "porta", "janela", "parede",
    "teto", "chão", "piso", "tinta", "tela", "monitor", "computador"
  ]

  /** Keywords for electronics, stationery, vehicles and clothing. */
  const KeywordGroup2: seq<string> := [
    "teclado", "mouse", "celular", "telefone", "tablet", "notebook", "impressora", "papel",
    "caneta", "lápis", "borracha", "caderno", "livro", "revista", "jornal", "carro",
    "moto", "bicicleta", "ônibus", "avião", "barco", "navio", "trem", "roupa", "camisa",
    "calça", "sapato", "tênis", "meia", "cueca", "sutiã"
  ]

  /** Keywords for accessories, tools and fittings. */
  const KeywordGroup3: seq<string> := [
    "relógio", "óculos", "bolsa", "mochila", "carteira", "chave", "cadeado", "ferramenta",
    "martelo", "chave de fenda", "alicate", "serra", "furadeira", "parafuso", "prego",
    "arame", "fio", "cabo", "plugue", "tomada", "lâmpada", "interruptor", "ventilador",
    "ar condicionado", "aquecedor", "chuveiro"
  ]

  /** Keywords for toiletries, bedding, garden and animals. */
  const KeywordGroup4: seq<string> := [
    "sabonete", "shampoo", "condicionador", "pasta de dente", "escova de dente", "toalha",
    "lençol", "travesseiro", "cobertor", "edredom", "cortina", "planta", "vaso", "terra",
    "adubo", "semente", "flor", "árvore", "grama", "animal", "cachorro", "gato", "pássaro",
    "peixe", "hamster", "coelho"
  ]

  /** Keywords for toys, medicine, cleaning and cosmetics. */
  const KeywordGroup5: seq<string> := [
    "brinquedo", "boneca", "carrinho", "bola", "jogo", "videogame", "console",
    "medicamento", "remédio", "vitamina", "suplemento", "pílula", "comprimido",
    "produto de limpeza", "detergente", "sabão", "desinfetante", "água sanitária",
    "perfume", "desodorante", "creme", "loção", "protetor solar", "maquiagem"
  ]

  /** Keywords for grooming. */
  const KeywordGroup6: seq<string> := [
    "pincel", "espelho", "pente", "tesoura", "alicate de unha", "lixa"
  ]

  lemma KeywordGroup1Long()
    ensures forall k :: k in KeywordGroup1 ==> |k| >= 3
  {
  }

  lemma KeywordGroup2Long()
    ensures forall k :: k in KeywordGroup2 ==> |k| >= 3
  {
  }

  lemma KeywordGroup3Long()
    ensures forall k :: k in KeywordGroup3 ==> |k| >= 3
  {
  }

  lemma KeywordGroup4Long()
    ensures forall k :: k in KeywordGroup4 ==> |k| >= 3
  {
  }

  lemma KeywordGroup5Long()
    ensures forall k :: k in KeywordGroup5 ==> |k| >= 3
  {
  }

  lemma KeywordGroup6Long()
    ensures forall k :: k in KeywordGroup6 ==> |k| >= 3
  {
  }

  /** Every keyword is at least three characters long. */
  lemma KeywordsAtLeastThree()
    ensures forall k :: k in NonFoodKeywords ==> |k| >= 3
  {
    KeywordGroup1Long();
    KeywordGroup2Long();
    KeywordGroup3Long();
    KeywordGroup4Long();
    KeywordGroup5Long();
    KeywordGroup6Long();
  }

  datatype Validation = Validation(isValid: bool, reason: Option<string>)

  const TooShortReason := "Nome muito curto. Use um nome descritivo do ingrediente."

  function NotFoodReason(name: string, keyword: string): string
  {
    "\"" + name + "\" não parece ser um ingrediente comestível. Parece ser um(a) " + keyword + "."
  }

  /** `name.trim().toLowerCase()` */
  function Normalize(name: string): string
  {
    Lower(Trim(name))
  }

  /** `normalizedName.includes(keyword.toLowerCase())` */
  function MentionsKeyword(normalized: string): string -> bool
  {
    (keyword: string) => Contains(normalized, Lower(keyword))
  }

  /** The first keyword of `keywords`, in list order, that the normalised
      name includes. */
  function FirstKeywordIn(keywords: seq<string>, normalized: string): (k: Option<string>)
    ensures k.None? <==> forall j :: 0 <= j < |keywords| ==> !Contains(normalized, Lower(keywords[j]))
    ensures k.Some? ==>
      exists i ::
        && 0 <= i < |keywords| && keywords[i] == k.value
        && Contains(normalized, Lower(keywords[i]))
        && forall j :: 0 <= j < i ==> !Contains(normalized, Lower(keywords[j]))
  {
    match FirstIndex(keywords, MentionsKeyword(normalized))
    case Some(i) => Some(keywords[i])
    case None => None
  }

  function FirstKeyword(normalized: string): Option<string>
  {
    FirstKeywordIn(NonFoodKeywords, normalized)
  }

  /** `quickValidateIngredientName`: the keyword check, then the length
      check. */
  function QuickValidate(name: string): (v: Validation)
    ensures v.isValid <==> FirstKeyword(Normalize(name)).None? && |Normalize(name)| >= 2
    ensures v.isValid ==> v.reason.None?
    ensures FirstKeyword(Normalize(name)).Some? ==>
      v.reason == Some(NotFoodReason(name, FirstKeyword(Normalize(name)).value))
    ensures FirstKeyword(Normalize(name)).None? && |Normalize(name)| < 2 ==> v.reason == Some(TooShortReason)
  {
    var normalizedName := Normalize(name);
    match FirstKeyword(normalizedName)
    case Some(keyword) => Validation(false, Some(NotFoodReason(name, keyword)))
    case None =>
      if |normalizedName| < 2 then Validation(false, Some(TooShortReason))
      else Validation(true, None)
  }

  /** `validateIngredientName` without an API key: the length check, then
      the keyword check. */
  function OfflineValidate(name: string): (v: Validation)
    ensures |Normalize(name)| < 2 ==> v == Validation(false, Some(TooShortReason))
    ensures |Normalize(name)| >= 2 && FirstKeyword(Normalize(name)).Some? ==>
      v == Validation(false, Some(NotFoodReason(name, FirstKeyword(Normalize(name)).value)))
    ensures |Normalize(name)| >= 2 && FirstKeyword(Normalize(name)).None? ==> v == Validation(true, None)
  {
    var normalizedName := Normalize(name);
    if |normalizedName| < 2 then Validation(false, Some(TooShortReason))
    else
      match FirstKeyword(normalizedName)
      case Some(keyword) => Validation(false, Some(NotFoodReason(name, keyword)))
      case None => Validation(true, None)
  }

  /** The two orders of the checks give the same answer, reason included:
      a name too short to pass cannot include a keyword of three letters. */
  lemma OfflineAgreesWithQuick(name: string)
    ensures OfflineValidate(name) == QuickValidate(name)
  {
    if |Normalize(name)| < 2 {
      ShortNamesAgree(name);
    }
  }

  /** For a name too short to pass, both orders give the length verdict. */
  lemma ShortNamesAgree(name: string)
    requires |Normalize(name)| < 2
    ensures OfflineValidate(name) == QuickValidate(name)
  {
    KeywordsAtLeastThree();
    ShortNameNoKeyword(NonFoodKeywords, Normalize(name));
  }

  /** A name of fewer than two characters includes no keyword of three. */
  lemma ShortNameNoKeyword(keywords: seq<string>, normalized: string)
    requires forall k :: k in keywords ==> |k| >= 3
    requires |normalized| < 2
    ensures FirstKeywordIn(keywords, normalized).None?
  {
    forall j | 0 <= j < |keywords| ensures !Contains(normalized, Lower(keywords[j])) {
      assert keywords[j] in keywords;
    }
  }

  /** Changing case or adding surrounding white space does not change the
      normalised name. */
  lemma NormalizeIgnoresCaseAndSpace(name: string, pre: string, post: string)
    requires forall i :: 0 <= i < |pre| ==> IsWhiteSpace(pre[i])
    requires forall i :: 0 <= i < |post| ==> IsWhiteSpace(post[i])
    ensures Normalize(pre + Lower(name) + post) == Normalize(name)
  {
    TrimPadded(pre, Lower(name), post);
    TrimLower(name);
    LowerIdempotent(Trim(name));
  }

  /** Only the trimmed, lower-cased name matters: changing case or
      surrounding white space changes neither verdict. */
  lemma ValidationIgnoresCaseAndSpace(name: string, pre: string, post: string)
    requires forall i :: 0 <= i < |pre| ==> IsWhiteSpace(pre[i])
    requires forall i :: 0 <= i < |post| ==> IsWhiteSpace(post[i])
    ensures QuickValidate(pre + Lower(name) + post).isValid == QuickValidate(name).isValid
    ensures OfflineValidate(pre + Lower(name) + post).isValid == OfflineValidate(name).isValid
  {
    NormalizeIgnoresCaseAndSpace(name, pre, post);
  }
}
