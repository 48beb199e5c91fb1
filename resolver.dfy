/** The style resolver: look a style up by name in the current scale and
    turn the row into the inline style the component renders with
    (getStyleForType). */
module Resolver {
  import opened Scale

  datatype Option<T> = None | Some(value: T)

  /** An inline text style.  Empty is the style object with no properties,
      which leaves every property at the browser's default. */
  datatype Style = Empty | Style(sizePx: int, weight: int, family: string, color: string)

  /** The one text colour every resolved style uses. */
  const TextColor: string := "black"

  /** The font family a style of category c is drawn in. */
  function FamilyFor(c: Category, bodyFont: string, displayFont: string): string {
    if c == Body then bodyFont else displayFont
  }

  /** The first row of s named name, if any (Array.prototype.find). */
  function Find(s: seq<TypeScale>, name: string): (r: Option<TypeScale>)
    ensures r.None? <==> forall i :: 0 <= i < |s| ==> s[i].name != name
    ensures r.Some? ==> r.value in s && r.value.name == name
  {
    if s == [] then None
    else if s[0].name == name then Some(s[0])
    else Find(s[1..], name)
  }

  /** Row i is the first row of s named name. */
  predicate IsFirstMatch(s: seq<TypeScale>, name: string, i: int) {
    0 <= i < |s| && s[i].name == name && forall j :: 0 <= j < i ==> s[j].name != name
  }

  /** Find returns the earliest row with the name, not just some row. */
  lemma {:induction false} FindFirst(s: seq<TypeScale>, name: string)
    ensures forall i :: IsFirstMatch(s, name, i) ==> Find(s, name) == Some(s[i])
  {
    if s != [] && s[0].name != name {
      FindFirst(s[1..], name);
      forall i | IsFirstMatch(s, name, i) ensures Find(s, name) == Some(s[i]) {
        assert IsFirstMatch(s[1..], name, i - 1);
      }
    }
  }

  /** The style for the style named name in scale, drawn in bodyFont or
      displayFont according to the row's category. */
  function StyleFor(scale: seq<TypeScale>, name: string, bodyFont: string, displayFont: string): (st: Style)
    ensures st.Empty? <==> forall i :: 0 <= i < |scale| ==> scale[i].name != name
    ensures st.Style? ==>
              && st.color == TextColor
              && exists t :: t in scale && t.name == name && st.sizePx == t.size && st.weight == t.weight
                             && st.family == FamilyFor(t.category, bodyFont, displayFont)
    ensures forall i :: IsFirstMatch(scale, name, i) ==>
              st == Style(scale[i].size, scale[i].weight, FamilyFor(scale[i].category, bodyFont, displayFont), TextColor)
  {
    FindFirst(scale, name);
    match Find(scale, name)
    case None => Empty
    case Some(t) => Style(t.size, t.weight, FamilyFor(t.category, bodyFont, displayFont), TextColor)
  }

  /** Before the first scale is generated every name resolves to the empty style. */
  lemma InitialScaleResolvesEmpty(name: string, bodyFont: string, displayFont: string)
    ensures StyleFor([], name, bodyFont, displayFont) == Empty
  {
  }

  /** On any scale with the table's names, weights and categories, whatever
      its sizes (a scale not yet regenerated after a base change, say), row
      i's name resolves to row i's size in the table's weight and in the font
      of row i's category, and a name outside the table to the empty style. */
  lemma ResolveWellFormed(s: seq<TypeScale>, name: string, bodyFont: string, displayFont: string)
    requires WellFormedScale(s)
    ensures name !in ScaleNames ==> StyleFor(s, name, bodyFont, displayFont) == Empty
    ensures forall i :: 0 <= i < |s| && ScaleNames[i] == name ==>
              StyleFor(s, name, bodyFont, displayFont)
              == Style(s[i].size, RowWeight(i), FamilyFor(RowCategory(i), bodyFont, displayFont), TextColor)
  {
    ScaleNamesDistinct();
    if name !in ScaleNames {
      forall i | 0 <= i < |s| ensures s[i].name != name {
        assert s[i].name == ScaleNames[i];
      }
    }
    forall i | 0 <= i < |s| && ScaleNames[i] == name
      ensures StyleFor(s, name, bodyFont, displayFont)
              == Style(s[i].size, RowWeight(i), FamilyFor(RowCategory(i), bodyFont, displayFont), TextColor)
    {
      assert IsFirstMatch(s, name, i);
    }
  }

  /** On a generated scale, row i's name resolves to row i's size and weight,
      in the font of row i's category, in black. */
  lemma ResolveGenerated(base: int, i: int, bodyFont: string, displayFont: string)
    requires 0 <= i < 13
    ensures StyleFor(GenerateScale(base), ScaleNames[i], bodyFont, displayFont)
            == Style(RoundEighths(base, Eighths[i]), RowWeight(i),
                     FamilyFor(RowCategory(i), bodyFont, displayFont), TextColor)
  {
    GenerateScaleMeetsTable(base);
    ResolveWellFormed(GenerateScale(base), ScaleNames[i], bodyFont, displayFont);
  }

  /** A name that is not one of the thirteen resolves to the empty style. */
  lemma ResolveUnknown(base: int, name: string, bodyFont: string, displayFont: string)
    requires name !in ScaleNames
    ensures StyleFor(GenerateScale(base), name, bodyFont, displayFont) == Empty
  {
    GenerateScaleMeetsTable(base);
    ResolveWellFormed(GenerateScale(base), name, bodyFont, displayFont);
  }

  /** The empty name and a made-up name resolve to the empty style. */
  lemma ResolveUnknownExamples(base: int, bodyFont: string, displayFont: string)
    ensures StyleFor(GenerateScale(base), "", bodyFont, displayFont) == Empty
    ensures StyleFor(GenerateScale(base), "Nonexistent", bodyFont, displayFont) == Empty
  {
    ResolveUnknown(base, "", bodyFont, displayFont);
    ResolveUnknown(base, "Nonexistent", bodyFont, displayFont);
  }

  /** The body font never changes how a display-category style is drawn, and
      the display font never changes how a body-category style is drawn. */
  lemma FontsAreIndependent(base: int, name: string, b1: string, b2: string, d1: string, d2: string)
    ensures name in ScaleNames[7..] ==>
              StyleFor(GenerateScale(base), name, b1, d1) == StyleFor(GenerateScale(base), name, b2, d1)
    ensures name in ScaleNames[..7] ==>
              StyleFor(GenerateScale(base), name, b1, d1) == StyleFor(GenerateScale(base), name, b1, d2)
  {
    if name in ScaleNames {
      var i :| 0 <= i < 13 && ScaleNames[i] == name;
      ScaleNamesDistinct();
      ResolveGenerated(base, i, b1, d1);
      ResolveGenerated(base, i, b2, d1);
      ResolveGenerated(base, i, b1, d2);
      if name in ScaleNames[7..] {
        var j :| 7 <= j < 13 && ScaleNames[j] == name;
        assert i == j;
      }
      if name in ScaleNames[..7] {
        var j :| 0 <= j < 7 && ScaleNames[j] == name;
        assert i == j;
      }
    }
  }

  /** Changing the base changes only the resolved size: whether a name
      resolves, and its weight, family and colour, stay as they were. */
  lemma BaseChangesOnlySize(b1: int, b2: int, name: string, bodyFont: string, displayFont: string)
    ensures var st1, st2 := StyleFor(GenerateScale(b1), name, bodyFont, displayFont),
                            StyleFor(GenerateScale(b2), name, bodyFont, displayFont);
            && st1.Empty? == st2.Empty?
            && (st1.Style? ==> st2 == st1.(sizePx := st2.sizePx))
  {
    if name in ScaleNames {
      var i :| 0 <= i < 13 && ScaleNames[i] == name;
      ResolveGenerated(b1, i, bodyFont, displayFont);
      ResolveGenerated(b2, i, bodyFont, displayFont);
    } else {
      ResolveUnknown(b1, name, bodyFont, displayFont);
      ResolveUnknown(b2, name, bodyFont, displayFont);
    }
  }
}
