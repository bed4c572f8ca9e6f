# dubois-style, modelled in Dafny

`dubois-style` gives matplotlib a look inspired by W. E. B. Du Bois's data
portraits. It has two parts:

- a fixed palette: seven colour families, each with a light and a dark hex
  variant, plus three colour cycles derived from them (light-sequential,
  dark-sequential and high-contrast categorical);
- two helpers: `apply_dubois_style`, which overwrites a fixed set of global
  `rcParams` keys and can register font files, and `dubois_legend`, which
  calls `ax.legend` with Du Bois defaults, placed inside or just right of the
  axes.

The model has two modules:

- `palettes.dfy` (module `Palettes`) holds the tables as constants. It
  proves how they are shaped and how they relate:
  - every family has exactly a light and a dark variant, and every colour is
    a 7-character lower-case hex string;
  - the snake-case colour maps follow the families;
  - the two sequential cycles run through the families in the same order;
  - the categorical cycle is a permutation of the light cycle and holds no
    dark colour.
- `style.dfy` (module `Style`) models the helpers:
  - cycle selection and its error path;
  - the update dictionary, and the global configuration after a call, as
    functions;
  - the two pieces of global state the source mutates, `plt.rcParams` and
    `font_manager.fontManager`, as the classes `RcParams` and `FontManager`;
  - `apply_dubois_style` as a method over both classes;
  - `dubois_legend` as a method that pops from and fills in a local copy of
    the keyword dictionary, and returns the `legend` call it would make.

Source values become Dafny values as follows:

- Strings become `string`.
- Floats become `real`, so arithmetic is exact.
- The value written to an `rcParams` key becomes the datatype `Value`.
- A legend argument becomes the datatype `Arg`. Anything that is not text, a
  number, a flag or an anchor point is an opaque `Object`.

Two facts about the code shape the model:

- The font loop (`style.py:95-97`) runs before the cycle check
  (`style.py:99-108`), so `ApplyDuboisStyle` registers the fonts even when
  the selector is rejected.
- The update writes 24 keys (`style.py:110-147`).

## Model

| member | source | states |
|---|---|---|
| Palettes.FamilyTableShape | src/dubois_style/palettes.py:6-35 | there are exactly seven families, their names are exactly those of the sequential order, and each has exactly the variants `light` and `dark` |
| Palettes.AllColorsAreHex | src/dubois_style/palettes.py:7-34 | every variant of every family is `#` followed by six lower-case hex digits |
| Palettes.ColorMapsFollowFamilies | src/dubois_style/palettes.py:37-55 | the light and dark colour maps have the same keys, which are exactly the snake-case names of the families; each key maps to that family's light (resp. dark) variant |
| Palettes.LightVariantsDistinct | src/dubois_style/palettes.py:6-35 | no two families share a light variant, so a light colour names its family |
| Palettes.LightCycleOrder | src/dubois_style/palettes.py:58-66 | the light cycle has one entry per family, and entry i is the light variant of the i-th family in the sequential order |
| Palettes.DarkCycleMatchesLight | src/dubois_style/palettes.py:68-76 | the dark cycle has the same length as the light cycle; entry i is the dark variant of the family whose light variant is entry i of the light cycle |
| Palettes.CategoricalIsPermutationOfLight | src/dubois_style/palettes.py:80-88 | the categorical cycle has the same multiset of colours as the light cycle, repeats no colour, and starts with Deep Navy's light variant |
| Palettes.CategoricalHasNoDarkColor | src/dubois_style/palettes.py:80-88 | every categorical colour is a value of the light colour map and of no entry of the dark colour map |
| Style.SelectCycle | src/dubois_style/style.py:99-108 | with the contrast flag set, the categorical cycle whatever the selector; otherwise the light or dark cycle for `"light"` / `"dark"`; an error, with the source's message, exactly when the flag is off and the selector is neither |
| Style.SelectedCycleTraces | src/dubois_style/style.py:99-108 | a selected cycle has seven colours, and colour i is the chosen variant of the i-th family in the chosen order (sequential, or the categorical reordering) |
| Style.UpdateKeysExact | src/dubois_style/style.py:110-147 | the update writes exactly the 24 listed keys |
| Style.UpdateCycle | src/dubois_style/style.py:119 | `axes.prop_cycle` holds the selected colours |
| Style.UpdateXAxis | src/dubois_style/style.py:126-130 | the bottom spine and the bottom ticks follow `show_x_axis` |
| Style.UpdateYAxis | src/dubois_style/style.py:125-131 | the left spine and the left ticks follow `show_y_axis` |
| Style.UpdateHidesTopRight | src/dubois_style/style.py:123-141 | the top and right spines, the grid and the legend frame are always off |
| Style.UpdateTransparent | src/dubois_style/style.py:112-116 | the figure, axes and saved-figure backgrounds are `none` and `axes.unicode_minus` is off |
| Style.UpdateDarkInk | src/dubois_style/style.py:122-146 | text, axis labels and patch edges are `#111111`; the axes edge is `#333333` |
| Style.UpdateGreyInk | src/dubois_style/style.py:139-142 | tick colours and legend label colour are `#666666` |
| Style.UpdateSizes | src/dubois_style/style.py:132-145 | tick label size is 10 and line width is 2.0 |
| Style.UpdateFontFamily | src/dubois_style/style.py:136 | `font.family` is a one-element list for a single font name and the list itself for a list of names |
| Style.DefaultStyle | src/dubois_style/style.py:25-33 | with the signature's defaults the call succeeds, installs the light cycle and `["DejaVu Sans"]` as the font list, hides both axes (spines and ticks) and registers no font file |
| Style.StyleFailsOnlyOnBadCycle | src/dubois_style/style.py:99-108 | computing the new configuration fails exactly when the selector is rejected |
| Style.StyleKeepsOtherKeys | src/dubois_style/style.py:110 | after a successful call the configuration has the old keys plus the 24 style keys, and every other key keeps its value |
| Style.StyleWritesOptions | src/dubois_style/style.py:119-136 | after a successful call the style keys are present and hold the selected cycle, the axis flags and the font list |
| Style.StyleIdempotent | src/dubois_style/style.py:110-147 | applying the style twice with the same options gives the same configuration as applying it once |
| Style.ContrastIgnoresSelector | src/dubois_style/style.py:99-101 | with the contrast flag set the call succeeds, and the resulting configuration does not depend on the selector |
| Style.RcParams.Update | src/dubois_style/style.py:110 | `update` overwrites the given keys and leaves the rest |
| Style.FontManager.AddFont | src/dubois_style/style.py:97 | `addfont` appends the path to the registry |
| Style.RegisterFonts | src/dubois_style/style.py:95-97 | the paths are registered in the given order |
| Style.ApplyDuboisStyle | src/dubois_style/style.py:25-147 | the given font paths are registered, even when the selector is rejected; an invalid selector ends in the source's `ValueError` and leaves `rcParams` unchanged; otherwise `rcParams` becomes the configuration defined by `StyledParams` |
| Style.DuboisLegend | src/dubois_style/style.py:150-201 | `outside` defaults to true and `outside_pad` to 0.02, as keyword-only parameters; outside: `loc` and `bbox_to_anchor` are the caller's values or `center left` and `(1 + outside_pad, 0.5)`; padding is 0 and the frame is off; a caller's own `frameon` or `borderaxespad` makes the call fail with a duplicate-keyword `TypeError`, which records the set of conflicting names. Inside: `loc` and `frameon` default to `best` and off, and the caller's values win. Positional and other keyword arguments pass through unchanged |

## Left out

- Rendering, figures and axes: the `ax` argument is not modelled. The
  result of `dubois_legend` is the `legend` call it would make, not a
  `Legend` object.
- The `cycler` object becomes the plain list of colours it cycles through.
- Font files are not read. `addfont` appends each path to the registry,
  so registering the same path twice records it twice. Whether the host
  library deduplicates is not part of this model.
- Floating-point rounding: `1.0 + outside_pad` and the line width are exact
  `real`s.
- Keyword order in the legend call is not modelled, because keyword
  arguments are a map.
- Python's own argument checks are not modelled. The model assumes
  well-typed arguments: a selector string, booleans, a font name or a list of
  names, and a list of paths.
- Concurrency. The source's global state is process-wide and unlocked; the
  model treats each call as atomic.
- `example.py`, the notebooks and `test_package.py` are not part of this
  model. `test_package.py` expects a `"blue"` family mapped to a single hex
  string (`test_package.py:22`, `59-60`) and passes a `title_font` keyword
  (`test_package.py:65`); neither matches the package's code, so it is not
  used as a source of properties.
- `__init__.py` only re-exports the names above.
- Palettes.FamilyTableShape: the family table is a map, so the insertion
  order of the Python dictionary's keys is not modelled; only the set of
  names is. The order itself is `SequentialOrder`, which the cycles follow.
- Style.FontManager.AddFont: the real `addfont` reads the font file and
  raises on a missing or unreadable path, which stops the loop and skips the
  cycle check and the update. The model's `AddFont` cannot fail, so
  `ApplyDuboisStyle` promises the registration of every path, and the
  update on success, only for paths that load.
- Style.RcParams.Update: the real `rcParams` validates and normalises each
  value as it is stored (the tick label size 10 becomes the float 10.0, and
  empty names are dropped from `font.family`). The model stores every value
  exactly as written and has no validation error.
- Style.DuboisLegend: on a duplicate keyword the model records the set of
  all conflicting names. Python reports only the first one it meets, and
  which one that is depends on keyword order, which is not modelled.
