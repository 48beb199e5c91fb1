/** The type scale: thirteen named text styles whose sizes are fixed
    multiples of a base font size (generateScale in the typescale
    generator component). */
module Scale {

  /** Which of the two font pickers a style follows. */
  datatype Category = Body | Display

  /** One row of the scale: a style name, its pixel size, its font weight
      and its category. */
  datatype TypeScale = TypeScale(name: string, size: int, weight: int, category: Category)

  /** The row names, in table order. */
  const ScaleNames: seq<string> := [
    "Caption", "Body Small", "Body Medium", "Body Large",
    "Title Small", "Title Medium", "Title Large",
    "Headline Small", "Headline Medium", "Headline Large",
    "Display Small", "Display Medium", "Display Large"
  ]

  /** Each row's multiplier of the base, in eighths: 0.75 is 6/8, 0.875 is
      7/8, ..., 3.5 is 28/8 and 4 is 32/8.  Every multiplier of the table is
      such a fraction, so base * multiplier is computed exactly. */
  const Eighths: seq<int> := [6, 7, 8, 9, 10, 12, 14, 16, 18, 20, 24, 28, 32]

  /** The weight the table gives row i: 500 for the three Title rows, 400 otherwise. */
  function RowWeight(i: int): int {
    if 4 <= i <= 6 then 500 else 400
  }

  /** The category the table gives row i: the first seven rows are body styles. */
  function RowCategory(i: int): Category {
    if i < 7 then Body else Display
  }

  /** JavaScript's Math.round(base * k / 8) for an integer base: the nearest
      integer, with halves rounded toward positive infinity.  The ensures is
      the defining property of that rounding: r - 1/2 <= base*k/8 < r + 1/2. */
  function RoundEighths(base: int, k: int): (r: int)
    ensures 8 * r - 4 <= base * k < 8 * r + 4
  {
    (base * k + 4) / 8
  }

  /** Round-half-up has exactly one answer. */
  lemma RoundEighthsUnique(base: int, k: int, r: int)
    requires 8 * r - 4 <= base * k < 8 * r + 4
    ensures r == RoundEighths(base, k)
  {
    var q := RoundEighths(base, k);
    assert 8 * q - 4 <= base * k < 8 * q + 4;
    assert 8 * (r - q) < 8 && 8 * (q - r) < 8;
  }

  /** The scale for a base size, in table order.  Body Medium is the base
      itself rather than a rounded product. */
  function GenerateScale(base: int): (s: seq<TypeScale>)
    ensures |s| == 13
  {
    [
      TypeScale("Caption", RoundEighths(base, 6), 400, Body),
      TypeScale("Body Small", RoundEighths(base, 7), 400, Body),
      TypeScale("Body Medium", base, 400, Body),
      TypeScale("Body Large", RoundEighths(base, 9), 400, Body),
      TypeScale("Title Small", RoundEighths(base, 10), 500, Body),
      TypeScale("Title Medium", RoundEighths(base, 12), 500, Body),
      TypeScale("Title Large", RoundEighths(base, 14), 500, Body),
      TypeScale("Headline Small", RoundEighths(base, 16), 400, Display),
      TypeScale("Headline Medium", RoundEighths(base, 18), 400, Display),
      TypeScale("Headline Large", RoundEighths(base, 20), 400, Display),
      TypeScale("Display Small", RoundEighths(base, 24), 400, Display),
      TypeScale("Display Medium", RoundEighths(base, 28), 400, Display),
      TypeScale("Display Large", RoundEighths(base, 32), 400, Display)
    ]
  }

  /** The sizes of a scale, in order. */
  function Sizes(s: seq<TypeScale>): seq<int> {
    seq(|s|, i requires 0 <= i < |s| => s[i].size)
  }

  /** A scale with the table's names, weights and categories in table order,
      whatever its sizes. */
  ghost predicate WellFormedScale(s: seq<TypeScale>) {
    && |s| == |ScaleNames|
    && forall i :: 0 <= i < |s| ==>
         s[i].name == ScaleNames[i] && s[i].weight == RowWeight(i) && s[i].category == RowCategory(i)
  }

  /** No two rows share a name, so a lookup by name finds a single row. */
  lemma ScaleNamesDistinct()
    ensures |ScaleNames| == 13
    ensures forall i, j :: 0 <= i < j < |ScaleNames| ==> ScaleNames[i] != ScaleNames[j]
  {
    forall i, j | 0 <= i < j < |ScaleNames| ensures ScaleNames[i] != ScaleNames[j] {
      // Names of different rows already differ in length or in their first or last character.
      var a, b := ScaleNames[i], ScaleNames[j];
      assert |a| != |b| || a[0] != b[0] || a[|a| - 1] != b[|b| - 1];
    }
  }

  /** Every generated scale follows the table: 13 rows in order, the table's
      weights and categories, and each size the round-half-up of
      base * Eighths[i] / 8. */
  lemma GenerateScaleMeetsTable(base: int)
    ensures WellFormedScale(GenerateScale(base))
    ensures forall i :: 0 <= i < 13 ==>
              var sz := GenerateScale(base)[i].size;
              8 * sz - 4 <= base * Eighths[i] < 8 * sz + 4
    ensures forall i :: 0 <= i < 13 ==> GenerateScale(base)[i].size == RoundEighths(base, Eighths[i])
  {
    var s := GenerateScale(base);
    assert RoundEighths(base, 8) == base;
    forall i | 0 <= i < 13
      ensures s[i].name == ScaleNames[i] && s[i].weight == RowWeight(i) && s[i].category == RowCategory(i)
      ensures s[i].size == RoundEighths(base, Eighths[i])
    {
    }
  }

  /** Body Medium is exactly the base, and the rows with whole multipliers
      (Headline Small, Display Small, Display Large) are exact multiples. */
  lemma ExactRows(base: int)
    ensures GenerateScale(base)[2].size == base
    ensures GenerateScale(base)[7].size == 2 * base
    ensures GenerateScale(base)[10].size == 3 * base
    ensures GenerateScale(base)[12].size == 4 * base
  {
    assert RoundEighths(base, 16) == 2 * base by { RoundEighthsUnique(base, 16, 2 * base); }
    assert RoundEighths(base, 24) == 3 * base by { RoundEighthsUnique(base, 24, 3 * base); }
    assert RoundEighths(base, 32) == 4 * base by { RoundEighthsUnique(base, 32, 4 * base); }
  }

  /** At the default base of 16 the scale is 12, 14, 16, ..., 56, 64. */
  lemma DefaultBaseSizes()
    ensures Sizes(GenerateScale(16)) == [12, 14, 16, 18, 20, 24, 28, 32, 36, 40, 48, 56, 64]
  {
  }

  /** Scales from two bases agree on everything but the sizes. */
  lemma OnlySizesDependOnBase(b1: int, b2: int)
    ensures |GenerateScale(b1)| == |GenerateScale(b2)|
    ensures forall i :: 0 <= i < |GenerateScale(b1)| ==>
              GenerateScale(b2)[i] == GenerateScale(b1)[i].(size := GenerateScale(b2)[i].size)
  {
    GenerateScaleMeetsTable(b1);
    GenerateScaleMeetsTable(b2);
  }

  /** Floor division by 8 keeps order. */
  lemma DivEightMonotone(x: int, y: int)
    requires x <= y
    ensures x / 8 <= y / 8
  {
  }

  /** For a non-negative base the sizes never decrease down the table. */
  lemma SizesNondecreasing(base: int)
    requires base >= 0
    ensures forall i, j :: 0 <= i <= j < 13 ==> GenerateScale(base)[i].size <= GenerateScale(base)[j].size
  {
    GenerateScaleMeetsTable(base);
    forall i, j | 0 <= i <= j < 13
      ensures GenerateScale(base)[i].size <= GenerateScale(base)[j].size
    {
      assert Eighths[i] <= Eighths[j];
      assert base * Eighths[i] <= base * Eighths[j];
      DivEightMonotone(base * Eighths[i] + 4, base * Eighths[j] + 4);
    }
  }

  /** For a base of at least 1 every size is at least 1 pixel. */
  lemma SizesPositive(base: int)
    requires base >= 1
    ensures forall i :: 0 <= i < 13 ==> GenerateScale(base)[i].size >= 1
  {
    SizesNondecreasing(base);
    assert GenerateScale(base)[0].size >= 1;
  }
}
