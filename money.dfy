/** Amounts of money, held as whole cents so that sums are exact, and their
    Brazilian rendering `value.toFixed(2).replace('.', ',')`. */
module Money {
  import opened Text

  /** Two digits, `00` to `99`: the cents of an amount, or
      `String(f).padStart(2, '0')` of an hour or a minute. */
  function TwoDigits(f: nat): (r: string)
    requires f < 100
    ensures |r| == 2 && AllDigits(r)
    ensures DigitsValue(r) == f
  {
    NatToStringValue(f);
    var d := NatToString(f);
    if f < 10 then
      var r := "0" + d;
      assert r[..1] == "0";
      r
    else d
  }

  /** `(cents / 100).toFixed(2).replace('.', ',')`: the whole part, a
      comma, and exactly two digits of cents. */
  function FormatCents(cents: int): (s: string)
    ensures |s| >= 4 && s[|s| - 3] == ','
    ensures AllDigits(s[|s| - 2..])
    ensures cents >= 0 ==> AllDigits(s[..|s| - 3])
  {
    var a := Abs(cents);
    var whole := NatToString(a / 100);
    var frac := TwoDigits(a % 100);
    var s := (if cents < 0 then "-" else "") + whole + "," + frac;
    assert s[|s| - 2..] == frac;
    assert cents >= 0 ==> s[..|s| - 3] == whole;
    s
  }

  /** A non-negative amount renders as its whole part, a comma and its
      cents. */
  lemma FormatCentsPieces(cents: int)
    requires cents >= 0
    ensures FormatCents(cents) == NatToString(cents / 100) + "," + TwoDigits(cents % 100)
  {
    assert "" + NatToString(cents / 100) == NatToString(cents / 100);
  }

  function Abs(n: int): (m: nat)
    ensures m == n || m == -n
  {
    if n < 0 then -n else n
  }

  /** The cents a rendering of a non-negative amount denotes. */
  function ParseCents(s: string): int
    requires |s| >= 4 && AllDigits(s[..|s| - 3]) && AllDigits(s[|s| - 2..])
  {
    DigitsValue(s[..|s| - 3]) * 100 + DigitsValue(s[|s| - 2..])
  }

  /** The rendering loses nothing: reading it back gives the amount. */
  lemma FormatCentsRoundTrip(cents: int)
    requires cents >= 0
    ensures ParseCents(FormatCents(cents)) == cents
  {
    var w, f := cents / 100, cents % 100;
    var whole := NatToString(w);
    var frac := TwoDigits(f);
    NatToStringValue(w);
    assert FormatCents(cents) == whole + "," + frac;
    ParsePieces(whole, frac);
    assert w * 100 + f == cents;
  }

  lemma ParsePieces(whole: string, frac: string)
    requires |whole| >= 1 && |frac| == 2 && AllDigits(whole) && AllDigits(frac)
    ensures var s := whole + "," + frac;
      |s| >= 4 && AllDigits(s[..|s| - 3]) && AllDigits(s[|s| - 2..]) &&
      ParseCents(s) == DigitsValue(whole) * 100 + DigitsValue(frac)
  {
    var s := whole + "," + frac;
    assert s[..|s| - 3] == whole;
    assert s[|s| - 2..] == frac;
  }
}
