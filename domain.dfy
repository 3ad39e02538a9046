/** The records the application reads from its database (src/lib/types.ts),
    reduced to the fields the business rules look at.

    Calendar days are integers ("day numbers"). Every rule compares an
    expiry date with the local midnight of "today", so only the difference
    of the two day numbers matters. */
module Domain {
  import opened Wrappers
  import Text

  /** An `expiry_date` column. `text` is the stored string, `""` when the
      column is `null` or empty (both are falsy, and every rule treats them
      alike). `day` is the day number of the local-midnight `Date` that the
      application builds from `text`: from the three numeric fields when
      `text` splits into three parts at `-`, otherwise by the engine's own
      date parser; `None` when that yields an invalid date (NaN), which
      makes every comparison with it false. */
  datatype Expiry = Expiry(text: string, day: Option<int>)

  /** `if (ing.expiry_date)` */
  predicate HasDate(e: Expiry)
  {
    e.text != ""
  }

  /** `ing.expiry_date.split('-').length === 3` */
  predicate IsDashed(e: Expiry)
  {
    |Text.Split(e.text, '-')| == 3
  }

  /** The days from today until the expiry day, read by the route that
      accepts any date string (three dashed fields or the engine's parser);
      `None` when there is no date or the date is invalid. */
  function DaysUntil(e: Expiry, today: int): (d: Option<int>)
    ensures d.Some? <==> HasDate(e) && e.day.Some?
    ensures d.Some? ==> d.value == e.day.value - today
  {
    if HasDate(e) && e.day.Some? then Some(e.day.value - today) else None
  }

  /** The same difference, read by the routes that ignore any date that does
      not split into three dashed fields. */
  function DashedDaysUntil(e: Expiry, today: int): (d: Option<int>)
    ensures d.Some? <==> HasDate(e) && IsDashed(e) && e.day.Some?
    ensures d.Some? ==> d == DaysUntil(e, today)
  {
    if IsDashed(e) then DaysUntil(e, today) else None
  }

  datatype Ingredient = Ingredient(
    id: string,
    name: string,
    quantity: real,
    unit: string,
    minStock: real,
    expiry: Expiry,
    category: Option<string>)

  /** `x || d` for an optional text column: `null` and `""` are falsy. */
  function TextOr(x: Option<string>, d: string): (r: string)
    ensures x.Some? && x.value != "" ==> r == x.value
    ensures x.None? || x.value == "" ==> r == d
  {
    if x.Some? && x.value != "" then x.value else d
  }

  datatype MovementType = Purchase | Sale | Adjustment | Waste | Expired

  /** `x || 0` for an optional number column: `null` reads as zero, and a
      zero stays zero. */
  function OrZero(x: Option<int>): (r: int)
    ensures x.Some? ==> r == x.value
    ensures x.None? ==> r == 0
  {
    if x.Some? then x.value else 0
  }

  /** `Math.max` */
  function Max(a: real, b: real): (m: real)
    ensures m >= a && m >= b && (m == a || m == b)
  {
    if a >= b then a else b
  }
}
