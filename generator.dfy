/** The typescale generator component's state: the base font size, the
    two font choices and the generated scale, with the handlers that
    update them and the effect that regenerates the scale. */
module Generator {
  import opened Scale
  import opened Resolver

  /** A choice offered by both font pickers: its label and its CSS
      font-family value. */
  datatype Font = Font(name: string, value: string)

  /** The five font families both pickers offer, in menu order. */
  const Fonts: seq<Font> := [
    Font("Roboto", "'Roboto', sans-serif"),
    Font("Open Sans", "'Open Sans', sans-serif"),
    Font("Lato", "'Lato', sans-serif"),
    Font("Poppins", "'Poppins', sans-serif"),
    Font("Montserrat", "'Montserrat', sans-serif")
  ]

  /** The base font size the component starts with. */
  const InitialBase: int := 16

  /** The menu offers five fonts, all different, and each picker starts on
      the first, Roboto. */
  lemma FontMenu()
    ensures |Fonts| == 5
    ensures forall i, j :: 0 <= i < j < |Fonts| ==> Fonts[i].name != Fonts[j].name && Fonts[i].value != Fonts[j].value
    ensures Fonts[0].value == "'Roboto', sans-serif"
  {
    forall i, j | 0 <= i < j < |Fonts|
      ensures Fonts[i].name != Fonts[j].name && Fonts[i].value != Fonts[j].value
    {
      // The labels differ in their first character, and each value starts with its quoted label.
      var a, b := Fonts[i], Fonts[j];
      assert a.name[0] != b.name[0] && a.value[1] != b.value[1];
    }
  }

  /** The base-size input handler's clamp, Math.max(1, Math.round(n)), for
      an integer input n: the stored base is at least 1, and an input that
      is already at least 1 is kept as it is. */
  function ClampBase(n: int): (r: int)
    ensures r >= 1
    ensures n >= 1 ==> r == n
    ensures n < 1 ==> r == 1
  {
    if n < 1 then 1 else n
  }

  class TypescaleGenerator {
    var baseFontSize: int
    var bodyFont: string
    var displayFont: string
    var scale: seq<TypeScale>

    /** The base is at least 1, and the scale is either the initial empty
        list or a full scale with the table's names, weights and categories. */
    ghost predicate Valid()
      reads this
    {
      baseFontSize >= 1 && (scale == [] || WellFormedScale(scale))
    }

    /** The regenerate effect has run since the base last changed. */
    ghost predicate Settled()
      reads this
    {
      scale == GenerateScale(baseFontSize)
    }

    /** The state of a freshly mounted component, before its effect runs:
        base 16, both pickers on the first font, no scale yet, so no name
        resolves to a style. */
    constructor ()
      ensures Valid()
      ensures baseFontSize == InitialBase
      ensures bodyFont == Fonts[0].value && displayFont == Fonts[0].value
      ensures scale == []
      ensures forall name :: StyleFor(scale, name, bodyFont, displayFont) == Empty
    {
      baseFontSize := InitialBase;
      bodyFont := Fonts[0].value;
      displayFont := Fonts[0].value;
      scale := [];
    }

    /** The base-size input handler: store the clamped input.  The scale is
        left as it was until the effect runs. */
    method SetBase(n: int)
      requires Valid()
      modifies this`baseFontSize
      ensures Valid()
      ensures baseFontSize == ClampBase(n)
      ensures scale == old(scale) && bodyFont == old(bodyFont) && displayFont == old(displayFont)
      ensures old(Settled()) && ClampBase(n) == old(baseFontSize) ==> Settled()
    {
      baseFontSize := ClampBase(n);
    }

    /** The effect that follows a change of base: replace the whole scale by
        the one generated from the current base.  On a settled state it
        changes nothing, so skipping it when the base did not change is
        harmless. */
    method RegenerateScale()
      requires Valid()
      modifies this`scale
      ensures Valid() && Settled()
      ensures baseFontSize == old(baseFontSize) && bodyFont == old(bodyFont) && displayFont == old(displayFont)
      ensures old(Settled()) ==> scale == old(scale)
    {
      GenerateScaleMeetsTable(baseFontSize);
      scale := GenerateScale(baseFontSize);
    }

    /** A base change followed by its effect: the scale ends up generated
        from the clamped input, and the fonts are untouched. */
    method ChangeBase(n: int)
      requires Valid()
      modifies this`baseFontSize, this`scale
      ensures Valid() && Settled()
      ensures baseFontSize == ClampBase(n)
      ensures bodyFont == old(bodyFont) && displayFont == old(displayFont)
      ensures forall i :: 0 <= i < |scale| ==> scale[i].size >= 1
    {
      SetBase(n);
      RegenerateScale();
      SizesPositive(baseFontSize);
    }

    /** The body-font picker's handler.  The base and the scale are
        unchanged, so a settled state stays settled. */
    method SetBodyFont(value: string)
      requires Valid()
      modifies this`bodyFont
      ensures Valid()
      ensures bodyFont == value
      ensures baseFontSize == old(baseFontSize) && scale == old(scale) && displayFont == old(displayFont)
      ensures Settled() == old(Settled())
    {
      bodyFont := value;
    }

    /** The display-font picker's handler.  The base and the scale are
        unchanged, so a settled state stays settled. */
    method SetDisplayFont(value: string)
      requires Valid()
      modifies this`displayFont
      ensures Valid()
      ensures displayFont == value
      ensures baseFontSize == old(baseFontSize) && scale == old(scale) && bodyFont == old(bodyFont)
      ensures Settled() == old(Settled())
    {
      displayFont := value;
    }

    /** The style an element named name is rendered with, looked up in the
        current scale and drawn in the current fonts.  Before the first
        effect no name resolves; otherwise a table name gets its row's
        current size, its table weight and the font of its category, even
        while the scale is stale, and any other name the empty style.  Once
        settled, the size is the one generated from the current base. */
    method Resolve(name: string) returns (st: Style)
      requires Valid()
      ensures st == StyleFor(scale, name, bodyFont, displayFont)
      ensures scale == [] || name !in ScaleNames ==> st == Empty
      ensures forall i :: 0 <= i < |scale| && ScaleNames[i] == name ==>
                st == Style(scale[i].size, RowWeight(i), FamilyFor(RowCategory(i), bodyFont, displayFont), TextColor)
      ensures Settled() ==> forall i :: 0 <= i < 13 && ScaleNames[i] == name ==>
                st == Style(RoundEighths(baseFontSize, Eighths[i]), RowWeight(i),
                            FamilyFor(RowCategory(i), bodyFont, displayFont), TextColor)
    {
      st := StyleFor(scale, name, bodyFont, displayFont);
      if scale != [] {
        ResolveWellFormed(scale, name, bodyFont, displayFont);
      }
      if Settled() {
        GenerateScaleMeetsTable(baseFontSize);
      }
    }
  }
}
