# Typescale generator, modelled in Dafny

The typescale generator is a single web component. The user picks a base
font size and two font families: one for body and title text, one for
headlines and display text. The component shows a type scale of thirteen
named text styles, from Caption to Display Large. Each style's size is a
fixed multiple of the base.

This project models the component's logic in three modules:

- `Scale` (scale.dfy): the `TypeScale` row, its `Category`, and
  `GenerateScale`, the thirteen-row table. JavaScript's
  `Math.round(base * m)` is written in integers. Every multiplier `m` is
  `k/8` for some whole `k`, so the double product is exact whenever
  `base*k` is below 2^53. That holds for every row when the base is below
  2^48 (about 2.8·10^14). `Math.round` takes the nearest integer and
  rounds halves toward positive infinity. For an
  integer base that is `(base*k + 4) / 8` with floor division, which is
  what Dafny's `/` does for a positive divisor. Lemmas cover the row order,
  distinct names, the rounding property of every size, the exact rows, the
  sizes at the default base of 16, monotonicity, and the fact that only
  the sizes depend on the base.
- `Resolver` (resolver.dfy): `getStyleForType`. It does a first-match
  lookup by name (`Find`, which models `Array.prototype.find`). It returns
  the empty style when no row has the name. Otherwise it returns the
  row's size, its weight, the body or display font chosen by category,
  and the colour black.
- `Generator` (generator.dfy): the font menu, the clamp applied by the
  base-size input handler, and a class `TypescaleGenerator` with the
  component's four state fields. Its methods are the three change
  handlers, the regenerate effect and the style lookup.

The React effect (`useEffect(..., [baseFontSize])`) becomes an explicit
method, `RegenerateScale`. `SetBase` changes only the base, so between the
two calls the scale is stale, as it is in React between a render and its
effect. `Settled()` states that the effect has caught up:
`scale == GenerateScale(baseFontSize)`.

`Math.round` rounds halves toward positive infinity, and the model does
the same. The model covers integer input to the base-size handler only.
The field is an `<input type="number">`. A number input reports text that
is not a valid number as the empty string, and `Number("")` is 0. So the
empty or invalid case is integer input 0, which `ClampBase` sends to 1.

## Model

| member | source | states |
|---|---|---|
| `Scale.RoundEighths` | src/components/TypescaleGenerator.tsx:27-39 | the result r is Math.round of base*k/8, characterised as r - 1/2 <= base*k/8 < r + 1/2 (halves round up) |
| `Scale.RoundEighthsUnique` | src/components/TypescaleGenerator.tsx:27-39 | that rounding property has exactly one solution, so the integer formula is the only possible answer |
| `Scale.GenerateScale` | src/components/TypescaleGenerator.tsx:26-40 | the generated scale has exactly 13 rows |
| `Scale.ScaleNamesDistinct` | src/components/TypescaleGenerator.tsx:26-40 | the 13 style names differ pairwise |
| `Scale.GenerateScaleMeetsTable` | src/components/TypescaleGenerator.tsx:26-40 | for every base: the names in order Caption ... Display Large; weight 500 for the Title rows and 400 otherwise; body category for the first seven rows and display for the last six; each size the round-half-up of base*k/8 with k = 6, 7, 8, 9, 10, 12, 14, 16, 18, 20, 24, 28, 32 |
| `Scale.ExactRows` | src/components/TypescaleGenerator.tsx:29-39 | Body Medium is the base itself; Headline Small, Display Small and Display Large are exactly 2, 3 and 4 times the base |
| `Scale.DefaultBaseSizes` | src/components/TypescaleGenerator.tsx:26-40 | at base 16 the sizes are 12, 14, 16, 18, 20, 24, 28, 32, 36, 40, 48, 56, 64 |
| `Scale.OnlySizesDependOnBase` | src/components/TypescaleGenerator.tsx:27-39 | scales from any two bases agree row by row on name, weight and category, and differ at most in size |
| `Scale.SizesNondecreasing` | src/components/TypescaleGenerator.tsx:27-39 | for a base >= 0 the sizes never decrease down the table |
| `Scale.SizesPositive` | src/components/TypescaleGenerator.tsx:27-39 | for a base >= 1, which the input clamp guarantees, every size is at least 1 |
| `Resolver.Find` | src/components/TypescaleGenerator.tsx:47 | finds nothing exactly when no row has the name; what it finds is a row of the scale with that name |
| `Resolver.FindFirst` | src/components/TypescaleGenerator.tsx:47 | whenever row i is the first row with the name, the lookup returns row i |
| `Resolver.StyleFor` | src/components/TypescaleGenerator.tsx:46-55 | the empty style exactly when no row has the name; otherwise black, with the size and weight of the first row with that name and the font its category selects |
| `Resolver.InitialScaleResolvesEmpty` | src/components/TypescaleGenerator.tsx:46-48 | on the initial empty scale every name resolves to the empty style |
| `Resolver.ResolveWellFormed` | src/components/TypescaleGenerator.tsx:46-55 | on any scale with the table's names, weights and categories, including one not yet regenerated after a base change, row i's name resolves to row i's size, table weight, category font and black, and a name outside the table to the empty style |
| `Resolver.ResolveGenerated` | src/components/TypescaleGenerator.tsx:47-54 | on a generated scale, row i's name resolves to row i's rounded size and table weight, in the body font for body rows and the display font for display rows, in black |
| `Resolver.ResolveUnknown` | src/components/TypescaleGenerator.tsx:47-48 | a name outside the thirteen resolves to the empty style |
| `Resolver.ResolveUnknownExamples` | src/components/TypescaleGenerator.tsx:47-48 | the empty name and "Nonexistent" resolve to the empty style |
| `Resolver.FontsAreIndependent` | src/components/TypescaleGenerator.tsx:52 | changing the body font never alters a display-category style, and changing the display font never alters a body-category style |
| `Resolver.BaseChangesOnlySize` | src/components/TypescaleGenerator.tsx:42-54 | after a base change a name resolves or not as before, with the same weight, family and colour; only the size may change |
| `Generator.FontMenu` | src/components/TypescaleGenerator.tsx:5-11 | the menu has five fonts with distinct labels and values, and the first is Roboto |
| `Generator.ClampBase` | src/components/TypescaleGenerator.tsx:70 | for an integer input the stored base is at least 1, equals the input when the input is at least 1, and is 1 otherwise |
| `Generator.TypescaleGenerator.constructor` | src/components/TypescaleGenerator.tsx:21-24 | starts with base 16, both fonts the first menu entry, an empty scale, and every name resolving to the empty style |
| `Generator.TypescaleGenerator.SetBase` | src/components/TypescaleGenerator.tsx:70 | stores the clamped input as the base and leaves the scale and fonts as they were; when the clamped input equals the old base, a settled state stays settled, so React's skipped effect loses nothing |
| `Generator.TypescaleGenerator.RegenerateScale` | src/components/TypescaleGenerator.tsx:42-44 | replaces the scale by the one generated from the current base, which settles the state; base and fonts unchanged; on a state that was already settled the scale is unchanged |
| `Generator.TypescaleGenerator.ChangeBase` | src/components/TypescaleGenerator.tsx:42-44 | a base change followed by its effect leaves the base clamped, the scale equal to the generated scale with every size at least 1, and the fonts unchanged |
| `Generator.TypescaleGenerator.SetBodyFont` | src/components/TypescaleGenerator.tsx:78 | sets the body font; base, scale and display font are unchanged, so a settled state stays settled |
| `Generator.TypescaleGenerator.SetDisplayFont` | src/components/TypescaleGenerator.tsx:92 | sets the display font; base, scale and body font are unchanged, so a settled state stays settled |
| `Generator.TypescaleGenerator.Resolve` | src/components/TypescaleGenerator.tsx:46-55 | returns the resolved style of the current state. Before the first effect, and for any name outside the table, that is the empty style. Otherwise, even while the scale is stale, a table name gets its row's current size, its table weight, the font of its category and black. Once settled, the size is the one generated from the base |

## Left out

- Rendering is not modelled: the JSX markup, the CSS class strings, the sample sentences and the article preview (lines 57-157). This is presentation only.
- React's scheduling is not modelled: when renders and effects run. The effect becomes the explicit `RegenerateScale` call. React skips the effect when the base is unchanged. That skip is not modelled. `SetBase` and `RegenerateScale` state why it loses nothing: an unchanged base keeps a settled state settled, and regenerating a settled state leaves the scale as it was.
- Generator.ClampBase: models `Math.max(1, Math.round(Number(v)))` only for integer input. Fractional input such as 15.5 is not modelled: `Math.round` makes it 16. The empty value, which is what a number input reports for invalid text, is modelled as input 0 and clamped to 1. Parsing the text is not modelled. Neither is the NaN path, which needs a value the number input never reports.
- `Resolver.StyleFor`: `fontSize` is modelled as the integer pixel count `sizePx`, not as the CSS string `"<size>px"`.
- Scale.RoundEighths: agrees with the double arithmetic only while `base*k` is below 2^53, which holds for every row when the base is below 2^48 (about 2.8·10^14). Above that the product `base * m` can round. For base 2^50+3, Body Large is exactly ...955.375; the double product is ...955.5, so `Math.round` gives ...956 where the model gives ...955. Above 2^53 the input itself is no longer held exactly. The model uses unbounded integers and does not follow the source there.
- The font setters accept any string. The model does not record that the pickers can only emit one of the five menu values.
- src/components/Gallery.tsx, src/app/layout.tsx and src/app/page.tsx are not part of this model. They hold a static image gallery, font and stylesheet loading, page metadata and the page that mounts the component.
