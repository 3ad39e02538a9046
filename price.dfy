/** The price field of src/components/EditPriceDialog.tsx: the sanitiser
    that runs on every keystroke, the text the field opens with, and the
    normalisation and checks of the submitted text. */
module Price {
  import opened Wrappers
  import opened Text
  import Utils
  import Money

  predicate IsSeparator(c: char)
  {
    c == ',' || c == '.'
  }

  /** `[\d,.]` */
  predicate IsPriceChar(c: char)
  {
    Utils.IsDigit(c) || IsSeparator(c)
  }

  predicate AllPriceChars(s: string)
  {
    forall i :: 0 <= i < |s| ==> IsPriceChar(s[i])
  }

  // -----------------------------------------------------------------------
  // the sanitiser
  // -----------------------------------------------------------------------

  /** `value.replace(/[^\d,.]/g, '')` */
  function KeepPriceChars(s: string): (r: string)
    ensures AllPriceChars(r)
  {
    if s == [] then [] else (if IsPriceChar(s[0]) then [s[0]] else []) + KeepPriceChars(s[1..])
  }

  /** The number of separators in `s`. */
  function Separators(s: string): nat
  {
    if s == [] then 0 else (if IsSeparator(s[0]) then 1 else 0) + Separators(s[1..])
  }

  /** `s.split(/[,.]/)`: one more part than separators, none holding a
      separator; the parts of a string of price characters are digits. */
  function SplitSeparators(s: string): (parts: seq<string>)
    ensures |parts| == Separators(s) + 1
    ensures forall k :: 0 <= k < |parts| ==> Separators(parts[k]) == 0
    ensures AllPriceChars(s) ==> forall k :: 0 <= k < |parts| ==> AllDigits(parts[k])
  {
    if s == [] then [""]
    else
      var rest := SplitSeparators(s[1..]);
      if IsSeparator(s[0]) then [""] + rest
      else
        var first := [s[0]] + rest[0];
        assert first[1..] == rest[0];
        [first] + rest[1..]
  }

  /** `parts.join('')` */
  function Concat(parts: seq<string>): string
  {
    if parts == [] then "" else parts[0] + Concat(parts[1..])
  }

  /** `handlePriceChange`: only digits and separators stay, and a second
      separator merges every part after the first into one, behind a
      comma. */
  function Sanitise(value: string): (r: string)
    ensures AllPriceChars(r)
    ensures Separators(r) <= 1
  {
    var v := KeepPriceChars(value);
    var parts := SplitSeparators(v);
    if |parts| > 2 then
      ConcatDigits(parts[1..]);
      SeparatorJoin(parts[0], ',', Concat(parts[1..]));
      parts[0] + "," + Concat(parts[1..])
    else
      v
  }

  lemma {:induction false} SeparatorsConcat(a: string, b: string)
    ensures Separators(a + b) == Separators(a) + Separators(b)
  {
    if a == [] {
      assert a + b == b;
    } else {
      assert (a + b)[0] == a[0] && (a + b)[1..] == a[1..] + b;
      SeparatorsConcat(a[1..], b);
    }
  }

  /** Digits hold no separator. */
  lemma {:induction false} DigitsClean(s: string)
    requires AllDigits(s)
    ensures '.' !in s && ',' !in s && Separators(s) == 0
  {
    if s != [] {
      DigitsClean(s[1..]);
      assert s == [s[0]] + s[1..];
    }
  }

  /** Two runs of digits around one separator. */
  lemma {:induction false} SeparatorJoin(a: string, sep: char, b: string)
    requires AllDigits(a) && AllDigits(b) && IsSeparator(sep)
    ensures AllPriceChars(a + [sep] + b) && Separators(a + [sep] + b) == 1
  {
    DigitsClean(a);
    DigitsClean(b);
    SeparatorsConcat(a + [sep], b);
    SeparatorsConcat(a, [sep]);
    assert [sep][1..] == [];
  }

  lemma {:induction false} ConcatDigits(parts: seq<string>)
    requires forall k :: 0 <= k < |parts| ==> AllDigits(parts[k])
    ensures AllDigits(Concat(parts))
  {
    if parts != [] {
      ConcatDigits(parts[1..]);
    }
  }

  lemma {:induction false} KeepPriceCharsFixes(s: string)
    requires AllPriceChars(s)
    ensures KeepPriceChars(s) == s
  {
    if s != [] {
      KeepPriceCharsFixes(s[1..]);
    }
  }

  /** Text the sanitiser produced is left as it is. */
  lemma {:induction false} SanitiseFixes(s: string)
    requires AllPriceChars(s) && Separators(s) <= 1
    ensures Sanitise(s) == s
  {
    KeepPriceCharsFixes(s);
  }

  /** Sanitising twice is sanitising once. */
  lemma {:induction false} SanitiseIdempotent(value: string)
    ensures Sanitise(Sanitise(value)) == Sanitise(value)
  {
    SanitiseFixes(Sanitise(value));
  }

  /** The digits of `s`, in order. */
  function DigitsOf(s: string): string
  {
    if s == [] then [] else (if Utils.IsDigit(s[0]) then [s[0]] else []) + DigitsOf(s[1..])
  }

  lemma {:induction false} DigitsOfConcat(a: string, b: string)
    ensures DigitsOf(a + b) == DigitsOf(a) + DigitsOf(b)
  {
    if a == [] {
      assert a + b == b;
    } else {
      var d := if Utils.IsDigit(a[0]) then [a[0]] else [];
      assert DigitsOf(a + b) == d + DigitsOf(a[1..] + b) by {
        assert (a + b)[0] == a[0] && (a + b)[1..] == a[1..] + b;
      }
      DigitsOfConcat(a[1..], b);
      assert d + (DigitsOf(a[1..]) + DigitsOf(b)) == (d + DigitsOf(a[1..])) + DigitsOf(b);
    }
  }

  lemma {:induction false} DigitsOfKeep(s: string)
    ensures DigitsOf(KeepPriceChars(s)) == DigitsOf(s)
  {
    if s != [] {
      DigitsOfKeep(s[1..]);
      DigitsOfConcat(if IsPriceChar(s[0]) then [s[0]] else [], KeepPriceChars(s[1..]));
    }
  }

  /** The parts of a split hold all the digits, in order. */
  lemma {:induction false} DigitsOfSplit(s: string)
    ensures DigitsOf(Concat(SplitSeparators(s))) == DigitsOf(s)
  {
    if s == [] {
      assert Concat([""]) == "";
    } else {
      var rest := SplitSeparators(s[1..]);
      var parts := SplitSeparators(s);
      DigitsOfSplit(s[1..]);
      assert Concat(rest) == rest[0] + Concat(rest[1..]);
      if IsSeparator(s[0]) {
        assert parts == [""] + rest && parts[1..] == rest;
        assert Concat(parts) == Concat(rest);
      } else {
        assert parts == [[s[0]] + rest[0]] + rest[1..] && parts[1..] == rest[1..];
        assert Concat(parts) == [s[0]] + Concat(rest);
        DigitsOfConcat([s[0]], Concat(rest));
        assert [s[0]][1..] == [];
      }
    }
  }

  /** The sanitiser drops no digit and adds none: it only removes other
      characters and separators. */
  lemma {:induction false} SanitiseKeepsDigits(value: string)
    ensures DigitsOf(Sanitise(value)) == DigitsOf(value)
  {
    var v := KeepPriceChars(value);
    var parts := SplitSeparators(v);
    DigitsOfKeep(value);
    if |parts| > 2 {
      assert Sanitise(value) == parts[0] + "," + Concat(parts[1..]);
      DigitsOfSplit(v);
      JoinKeepsDigits(parts);
    } else {
      assert Sanitise(value) == v;
    }
  }

  /** Joining the parts after the first one behind a comma keeps their
      digits. */
  lemma {:induction false} JoinKeepsDigits(parts: seq<string>)
    requires parts != []
    ensures DigitsOf(parts[0] + "," + Concat(parts[1..])) == DigitsOf(Concat(parts))
  {
    var tail := Concat(parts[1..]);
    assert DigitsOf(Concat(parts)) == DigitsOf(parts[0]) + DigitsOf(tail) by {
      assert Concat(parts) == parts[0] + tail;
      DigitsOfConcat(parts[0], tail);
    }
    assert DigitsOf(parts[0] + "," + tail) == DigitsOf(parts[0]) + DigitsOf(tail) by {
      assert parts[0] + "," + tail == parts[0] + ("," + tail);
      DigitsOfConcat(parts[0], "," + tail);
      DigitsOfConcat(",", tail);
    }
  }

  /** With two separators or more, the one kept is a comma. */
  lemma {:induction false} SanitiseManySeparators(value: string)
    requires Separators(KeepPriceChars(value)) >= 2
    ensures Separators(Sanitise(value)) == 1
    ensures ',' in Sanitise(value) && '.' !in Sanitise(value)
  {
    var parts := SplitSeparators(KeepPriceChars(value));
    var r := Sanitise(value);
    ConcatDigits(parts[1..]);
    assert r == parts[0] + [','] + Concat(parts[1..]);
    SeparatorJoin(parts[0], ',', Concat(parts[1..]));
    DigitsClean(parts[0]);
    DigitsClean(Concat(parts[1..]));
    assert r[|parts[0]|] == ',';
  }

  // -----------------------------------------------------------------------
  // the text the field opens with
  // -----------------------------------------------------------------------

  /** `currentPrice ? currentPrice.toFixed(2).replace('.', ',') : ''`, the
      price in cents; a price of zero counts as no price. */
  function InitialText(currentPrice: Option<int>): (r: string)
    ensures r == "" <==> currentPrice.None? || currentPrice.value == 0
  {
    if currentPrice.Some? && currentPrice.value != 0 then Money.FormatCents(currentPrice.value) else ""
  }

  // -----------------------------------------------------------------------
  // parseFloat
  // -----------------------------------------------------------------------

  function Pow10(n: nat): (p: nat)
    ensures p >= 1
  {
    if n == 0 then 1 else 10 * Pow10(n - 1)
  }

  /** The value of the decimal `ip.fp`. */
  function DecimalValue(ip: string, fp: string): (x: real)
    requires AllDigits(ip) && AllDigits(fp)
    ensures x >= 0.0
  {
    DigitsValue(ip) as real + FractionValue(fp)
  }

  /** The value of the digits `fp` after a decimal point. */
  function FractionValue(fp: string): (x: real)
    requires AllDigits(fp)
    ensures 0.0 <= x
  {
    DigitsValue(fp) as real / Pow10(|fp|) as real
  }

  /** An unsigned decimal at the start of `body`: digits, and after a point
      more digits; `None` when neither part has a digit. */
  function LeadingDecimal(body: string): (r: Option<real>)
    ensures r.Some? ==> body != []
  {
    var ip := Utils.DigitPrefix(body);
    var rest := body[|ip|..];
    var fp := if rest != [] && rest[0] == '.' then Utils.DigitPrefix(rest[1..]) else [];
    if ip == [] && fp == [] then None else Some(DecimalValue(ip, fp))
  }

  /** `parseFloat(s)` on decimal text: blanks skipped, an optional sign,
      then the decimal up to the first other character; `None` is `NaN`. */
  function ParseFloat(s: string): (r: Option<real>)
  {
    var t := TrimStart(s);
    match LeadingDecimal(Utils.SignFree(t))
    case None => None
    case Some(x) => if t[0] == '-' then Some(-x) else Some(x)
  }

  /** Text starting with a digit is read from its first character on. */
  lemma {:induction false} ParseFloatDigitFirst(s: string)
    requires s != [] && Utils.IsDigit(s[0])
    ensures ParseFloat(s) == LeadingDecimal(s)
  {
    assert !IsWhiteSpace(s[0]);
    assert TrimStart(s) == s;
    assert Utils.SignFree(s) == s;
  }

  lemma {:induction false} DigitPrefixStops(ip: string, rest: string)
    requires AllDigits(ip) && (rest == [] || !Utils.IsDigit(rest[0]))
    ensures Utils.DigitPrefix(ip + rest) == ip
  {
    if ip != [] {
      assert (ip + rest)[1..] == ip[1..] + rest;
      DigitPrefixStops(ip[1..], rest);
    }
  }

  /** A decimal written with a point reads as its value. */
  lemma {:induction false} ParseFloatDecimal(ip: string, fp: string)
    requires ip != [] && AllDigits(ip) && AllDigits(fp)
    ensures ParseFloat(ip + "." + fp) == Some(DecimalValue(ip, fp))
  {
    var s := ip + "." + fp;
    assert s[0] == ip[0];
    ParseFloatDigitFirst(s);
    LeadingDecimalPoint(ip, fp);
  }

  lemma {:induction false} LeadingDecimalPoint(ip: string, fp: string)
    requires AllDigits(ip) && AllDigits(fp) && ip + fp != []
    ensures LeadingDecimal(ip + "." + fp) == Some(DecimalValue(ip, fp))
  {
    var s := ip + "." + fp;
    var rest := "." + fp;
    assert s == ip + rest;
    DigitPrefixStops(ip, rest);
    assert s[|ip|..] == rest;
    assert rest[0] == '.' && rest[1..] == fp;
    DigitPrefixStops(fp, []);
    assert fp + [] == fp;
    assert Utils.DigitPrefix(fp) == fp;
  }

  /** A whole number reads as its value. */
  lemma {:induction false} ParseFloatWhole(ip: string)
    requires ip != [] && AllDigits(ip)
    ensures ParseFloat(ip) == Some(DigitsValue(ip) as real)
  {
    ParseFloatDigitFirst(ip);
    LeadingDecimalWhole(ip);
    FractionEmpty();
  }

  lemma {:induction false} LeadingDecimalWhole(ip: string)
    requires ip != [] && AllDigits(ip)
    ensures LeadingDecimal(ip) == Some(DecimalValue(ip, []))
  {
    assert Utils.DigitPrefix(ip) == ip by {
      DigitPrefixStops(ip, []);
      assert ip + [] == ip;
    }
    assert ip[|ip|..] == [];
  }

  lemma FractionEmpty()
    ensures FractionValue([]) == 0.0
  {
  }

  // -----------------------------------------------------------------------
  // handleSubmit
  // -----------------------------------------------------------------------

  /** The outcome of a submission: the "Preço inválido" error, or the
      price passed to `onSave`, `None` removing it. */
  datatype Submission = Invalid | Save(price: Option<real>)

  /** `s.replace(/\./g, '')` */
  function RemoveDots(s: string): (r: string)
    ensures '.' !in r
  {
    if s == [] then [] else (if s[0] == '.' then [] else [s[0]]) + RemoveDots(s[1..])
  }

  /** `s.replace(',', '.')`: the first comma only. */
  function FirstCommaToPoint(s: string): string
  {
    if s == [] then []
    else if s[0] == ',' then "." + s[1..]
    else [s[0]] + FirstCommaToPoint(s[1..])
  }

  /** The normalisation as written: every point is taken for a thousands
      separator and dropped, then the first comma becomes the decimal
      point. */
  function Normalise(price: string): string
  {
    FirstCommaToPoint(RemoveDots(price))
  }

  /** The checks on the normalised text: empty removes the price, `NaN`
      or a negative value is refused. */
  function SubmitNormalised(normalized: string): (s: Submission)
    ensures normalized == "" ==> s == Save(None)
    ensures normalized != "" ==>
      (s == Invalid <==> ParseFloat(normalized).None? || ParseFloat(normalized).value < 0.0)
    ensures normalized != "" && s.Save? ==> s.price == ParseFloat(normalized)
    ensures s.Save? && s.price.Some? ==> s.price.value >= 0.0 && ParseFloat(normalized) == s.price
  {
    if normalized == [] then Save(None)
    else match ParseFloat(normalized)
      case None => Invalid
      case Some(x) => if x < 0.0 then Invalid else Save(Some(x))
  }

  /** `handleSubmit` as written. */
  function HandleSubmit(price: string): Submission
  {
    SubmitNormalised(Normalise(price))
  }

  /** No character of `s` is a digit. */
  predicate NoDigit(s: string)
  {
    forall i :: 0 <= i < |s| ==> !Utils.IsDigit(s[i])
  }

  /** `parseFloat` of text without a digit is `NaN`. */
  lemma {:induction false} ParseFloatNoDigit(s: string)
    requires NoDigit(s)
    ensures ParseFloat(s) == None
  {
    var t := TrimStart(s);
    TrimStartSuffix(s);
    var body := Utils.SignFree(t);
    assert body == t[|t| - |body|..];
    assert NoDigit(body) by {
      forall i | 0 <= i < |body|
        ensures !Utils.IsDigit(body[i])
      {
        assert body[i] == s[|s| - |body| + i];
      }
    }
    assert Utils.DigitPrefix(body) == [];
    if body != [] && body[0] == '.' {
      assert Utils.DigitPrefix(body[1..]) == [] by {
        assert body[1..] == [] || !Utils.IsDigit(body[1..][0]);
      }
    }
  }

  /** The normalisation brings in no digit. */
  lemma {:induction false} NormaliseNoDigit(s: string)
    requires NoDigit(s)
    ensures NoDigit(Normalise(s))
  {
    RemoveDotsNoDigit(s);
    FirstCommaToPointNoDigit(RemoveDots(s));
  }

  lemma {:induction false} RemoveDotsNoDigit(s: string)
    requires NoDigit(s)
    ensures NoDigit(RemoveDots(s))
  {
    if s != [] {
      assert NoDigit(s[1..]) by {
        forall i | 0 <= i < |s[1..]|
          ensures !Utils.IsDigit(s[1..][i])
        {
          assert s[1..][i] == s[i + 1];
        }
      }
      RemoveDotsNoDigit(s[1..]);
    }
  }

  lemma {:induction false} FirstCommaToPointNoDigit(s: string)
    requires NoDigit(s)
    ensures NoDigit(FirstCommaToPoint(s))
  {
    if s != [] {
      assert NoDigit(s[1..]) by {
        forall i | 0 <= i < |s[1..]|
          ensures !Utils.IsDigit(s[1..][i])
        {
          assert s[1..][i] == s[i + 1];
        }
      }
      if s[0] != ',' {
        FirstCommaToPointNoDigit(s[1..]);
      }
    }
  }

  /** Text without a digit is refused with "Preço inválido", unless the
      normalisation leaves nothing of it (only points), which removes the
      price. */
  lemma HandleSubmitNoNumber(price: string)
    requires NoDigit(price)
    ensures HandleSubmit(price) == if Normalise(price) == "" then Save(None) else Invalid
  {
    NormaliseNoDigit(price);
    ParseFloatNoDigit(Normalise(price));
  }

  /** A negative number is refused; minus zero is saved as zero. */
  lemma {:induction false} HandleSubmitNegative(ds: string)
    requires ds != [] && AllDigits(ds)
    ensures HandleSubmit("-" + ds) == if DigitsValue(ds) > 0 then Invalid else Save(Some(0.0))
  {
    var t := "-" + ds;
    assert Normalise(t) == t by {
      RemoveDotsDigits(t);
      assert t[0] == '-' && t[1..] == ds;
      FirstCommaToPointNone(ds);
    }
    assert ParseFloat(t) == Some(-(DigitsValue(ds) as real)) by {
      assert TrimStart(t) == t;
      assert Utils.SignFree(t) == ds;
      LeadingDecimalWhole(ds);
      FractionEmpty();
    }
  }

  /** Empty text removes the price. */
  lemma {:induction false} HandleSubmitEmpty()
    ensures HandleSubmit("") == Save(None)
  {
  }

  lemma {:induction false} RemoveDotsDigits(s: string)
    requires '.' !in s
    ensures RemoveDots(s) == s
  {
    if s != [] {
      RemoveDotsDigits(s[1..]);
    }
  }

  lemma {:induction false} FirstCommaToPointDigits(ip: string, rest: string)
    requires AllDigits(ip)
    ensures FirstCommaToPoint(ip + "," + rest) == ip + "." + rest
  {
    if ip != [] {
      assert (ip + "," + rest)[1..] == ip[1..] + "," + rest;
      FirstCommaToPointDigits(ip[1..], rest);
    } else {
      assert ip + "," + rest == "," + rest;
    }
  }

  /** Opening the field on a price and submitting it unchanged saves the
      same price: the rendering with a comma reads back as the amount. */
  lemma {:induction false} InitialTextRoundTrip(cents: int)
    requires cents > 0
    ensures HandleSubmit(InitialText(Some(cents))) == Save(Some(cents as real / 100.0))
  {
    var q, r := cents / 100, cents % 100;
    var whole, frac := NatToString(q), Money.TwoDigits(r);
    assert InitialText(Some(cents)) == whole + "," + frac by {
      Money.FormatCentsPieces(cents);
    }
    assert DigitsValue(whole) == q by {
      NatToStringValue(q);
    }
    CentsText(InitialText(Some(cents)), cents, whole, frac);
  }

  /** Text made of the whole part, a comma and the two digits of cents
      saves the amount. */
  lemma {:induction false} CentsText(text: string, cents: nat, whole: string, frac: string)
    requires text == whole + "," + frac
    requires whole != [] && AllDigits(whole) && DigitsValue(whole) == cents / 100
    requires |frac| == 2 && AllDigits(frac) && DigitsValue(frac) == cents % 100
    ensures HandleSubmit(text) == Save(Some(cents as real / 100.0))
  {
    assert HandleSubmit(text) == Save(Some(DecimalValue(whole, frac))) by {
      CommaDecimal(whole, frac);
    }
    assert DecimalValue(whole, frac) == cents as real / 100.0 by {
      CentsDecimal(cents, whole, frac);
    }
  }

  /** The whole part and the two digits of cents are the amount. */
  lemma {:induction false} CentsDecimal(cents: nat, whole: string, frac: string)
    requires AllDigits(whole) && DigitsValue(whole) == cents / 100
    requires |frac| == 2 && AllDigits(frac) && DigitsValue(frac) == cents % 100
    ensures DecimalValue(whole, frac) == cents as real / 100.0
  {
    assert Pow10(2) == 100;
    var q, r := cents / 100, cents % 100;
    assert cents == 100 * q + r;
    assert FractionValue(frac) == r as real / 100.0;
    assert q as real + r as real / 100.0 == (100 * q + r) as real / 100.0;
  }

  /** A price of zero opens as an empty field, so saving it without an edit
      removes the price. */
  lemma {:induction false} ZeroPriceOpensEmpty()
    ensures InitialText(Some(0)) == ""
    ensures HandleSubmit(InitialText(Some(0))) == Save(None)
  {
  }

  /** As written, a decimal point that the sanitiser accepts is dropped at
      submission: `ip.fp` is saved as the whole number of all its digits,
      while `ip,fp` is saved as the decimal. */
  lemma {:induction false} PointDroppedAsWritten(ip: string, fp: string)
    requires ip != [] && AllDigits(ip) && AllDigits(fp)
    ensures Sanitise(ip + "." + fp) == ip + "." + fp
    ensures HandleSubmit(ip + "." + fp) == Save(Some(DigitsValue(ip + fp) as real))
    ensures HandleSubmit(ip + "," + fp) == Save(Some(DecimalValue(ip, fp)))
  {
    SeparatorJoin(ip, '.', fp);
    SanitiseFixes(ip + "." + fp);
    DotRemoved(ip, fp);
    assert AllDigits(ip + fp);
    FirstCommaToPointNone(ip + fp);
    ParseFloatWhole(ip + fp);
    CommaDecimal(ip, fp);
  }

  /** Dropping the points of `ip.fp` joins its digits. */
  lemma {:induction false} DotRemoved(ip: string, fp: string)
    requires AllDigits(ip) && AllDigits(fp)
    ensures RemoveDots(ip + "." + fp) == ip + fp
  {
    DigitsClean(ip);
    DigitsClean(fp);
    RemoveDotsConcat(ip + ".", fp);
    RemoveDotsConcat(ip, ".");
    assert "."[0] == '.' && "."[1..] == [];
    assert RemoveDots(".") == [];
    RemoveDotsDigits(ip);
    RemoveDotsDigits(fp);
    assert RemoveDots(ip + ".") == ip;
  }

  /** As written, a decimal typed with a comma is saved as its value. */
  lemma {:induction false} CommaDecimal(ip: string, fp: string)
    requires ip != [] && AllDigits(ip) && AllDigits(fp)
    ensures HandleSubmit(ip + "," + fp) == Save(Some(DecimalValue(ip, fp)))
  {
    var text := ip + "," + fp;
    DigitsClean(ip);
    DigitsClean(fp);
    RemoveDotsDigits(text);
    FirstCommaToPointDigits(ip, fp);
    ParseFloatDecimal(ip, fp);
  }

  lemma {:induction false} RemoveDotsConcat(a: string, b: string)
    ensures RemoveDots(a + b) == RemoveDots(a) + RemoveDots(b)
  {
    if a == [] {
      assert a + b == b;
    } else {
      assert (a + b)[0] == a[0] && (a + b)[1..] == a[1..] + b;
      RemoveDotsConcat(a[1..], b);
    }
  }

  lemma {:induction false} FirstCommaToPointNone(s: string)
    requires AllDigits(s)
    ensures FirstCommaToPoint(s) == s
  {
    if s != [] {
      FirstCommaToPointNone(s[1..]);
    }
  }

  /** For instance "12.50" is saved as 1250, "12,50" as 12.5. */
  lemma {:induction false} PointDroppedExample(dotted: string, comma: string)
    requires dotted == "12.50" && comma == "12,50"
    ensures Sanitise(dotted) == dotted
    ensures HandleSubmit(dotted) == Save(Some(1250.0))
    ensures HandleSubmit(comma) == Save(Some(12.5))
  {
    ExampleFields(dotted, comma, "12", "50");
    PointDroppedAsWritten("12", "50");
  }

  /** The digits of the example and their values. */
  lemma {:induction false} ExampleFields(dotted: string, comma: string, ip: string, fp: string)
    requires dotted == "12.50" && comma == "12,50" && ip == "12" && fp == "50"
    ensures dotted == ip + "." + fp && comma == ip + "," + fp
    ensures ip != [] && AllDigits(ip) && AllDigits(fp)
    ensures DigitsValue(ip + fp) as real == 1250.0 && DecimalValue(ip, fp) == 12.5
  {
    assert ip + fp == "1250";
    assert DigitsValue("1250") == 1250 by {
      assert "1250"[..3] == "125" && "125"[..2] == "12" && "12"[..1] == "1" && "1"[..0] == "";
    }
    assert DigitsValue(ip) == 12 by {
      assert ip[..1] == "1" && "1"[..0] == "";
    }
    assert DigitsValue(fp) == 50 by {
      assert fp[..1] == "5" && "5"[..0] == "";
    }
    assert Pow10(2) == 100;
  }

  /** The normalisation evidently intended: the one separator the
      sanitiser leaves, comma or point, is the decimal point. */
  function NormaliseIntended(price: string): (r: string)
    ensures |r| == |price| && ',' !in r
  {
    if price == [] then []
    else [if price[0] == ',' then '.' else price[0]] + NormaliseIntended(price[1..])
  }

  function HandleSubmitIntended(price: string): Submission
  {
    SubmitNormalised(NormaliseIntended(price))
  }

  lemma {:induction false} NormaliseIntendedDigits(s: string)
    requires AllDigits(s)
    ensures NormaliseIntended(s) == s
  {
    if s != [] {
      NormaliseIntendedDigits(s[1..]);
    }
  }

  lemma {:induction false} NormaliseIntendedConcat(a: string, b: string)
    ensures NormaliseIntended(a + b) == NormaliseIntended(a) + NormaliseIntended(b)
  {
    if a == [] {
      assert a + b == b;
    } else {
      assert (a + b)[0] == a[0] && (a + b)[1..] == a[1..] + b;
      NormaliseIntendedConcat(a[1..], b);
    }
  }

  /** With the intended normalisation, a decimal is saved as its value
      whichever separator it was typed with, and the text the field opens
      with still saves its own price. */
  lemma {:induction false} HandleSubmitIntendedDecimal(ip: string, sep: char, fp: string)
    requires ip != [] && AllDigits(ip) && AllDigits(fp) && IsSeparator(sep)
    ensures HandleSubmitIntended(ip + [sep] + fp) == Save(Some(DecimalValue(ip, fp)))
  {
    NormaliseIntendedConcat(ip + [sep], fp);
    NormaliseIntendedConcat(ip, [sep]);
    NormaliseIntendedDigits(ip);
    NormaliseIntendedDigits(fp);
    assert [sep][1..] == [];
    assert NormaliseIntended([sep]) == ".";
    ParseFloatDecimal(ip, fp);
  }

  /** The intended normalisation agrees with the written one on text whose
      separator is a comma, and on text without a separator. */
  lemma {:induction false} HandleSubmitIntendedAgrees(ip: string, fp: string)
    requires ip != [] && AllDigits(ip) && AllDigits(fp)
    ensures HandleSubmitIntended(ip + "," + fp) == HandleSubmit(ip + "," + fp)
    ensures HandleSubmitIntended(ip) == HandleSubmit(ip)
  {
    HandleSubmitIntendedDecimal(ip, ',', fp);
    CommaDecimal(ip, fp);
    NormaliseIntendedDigits(ip);
    DigitsClean(ip);
    RemoveDotsDigits(ip);
    FirstCommaToPointNone(ip);
  }
}
