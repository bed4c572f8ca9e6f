/** The style applier and the legend helper: choosing one of the three colour
    cycles, writing the fixed batch of presentation defaults into the plotting
    library's global configuration, registering font files with its font
    manager, and filling in default placement arguments for a legend call. */
module Style {
  import opened Palettes

  // ------------------------------------------------------------------
  // Values and options
  // ------------------------------------------------------------------

  /** A value stored under a configuration key. The colour cycle object is
      represented by the list of colours it cycles through. */
  datatype Value =
    | Bool(b: bool)
    | Str(s: string)
    | Int(i: int)
    | Real(r: real)
    | StrList(items: seq<string>)
    | Cycle(colors: seq<string>)

  /** `base_font`: a single family name or a list of fallback names. */
  datatype FontSpec = OneFont(name: string) | FontList(names: seq<string>)

  datatype Option<T> = None | Some(value: T)

  /** The keyword-only arguments of `apply_dubois_style`, with its defaults. */
  datatype StyleOptions = StyleOptions(
    nameonly cycle: string := "light",
    nameonly showXAxis: bool := false,
    nameonly showYAxis: bool := false,
    nameonly useContrastColors: bool := false,
    nameonly baseFont: FontSpec := OneFont("DejaVu Sans"),
    nameonly customFontPaths: Option<seq<string>> := None)

  /** A call with no arguments. */
  const DefaultOptions: StyleOptions := StyleOptions()

  /** A computation that either yields a value or raises `ValueError`. */
  datatype Result<T> = Ok(value: T) | ValueError(message: string)

  const CycleError: string := "cycle must be 'light' or 'dark'"

  // ------------------------------------------------------------------
  // Cycle selection
  // ------------------------------------------------------------------

  /** The colour cycle chosen by the two flags. The contrast flag wins over
      the selector; otherwise only "light" and "dark" are accepted. */
  function SelectCycle(cycle: string, useContrastColors: bool): (r: Result<seq<string>>)
    ensures useContrastColors ==> r == Ok(CategoricalCycle)
    ensures !useContrastColors && cycle == "light" ==> r == Ok(LightCycle)
    ensures !useContrastColors && cycle == "dark" ==> r == Ok(DarkCycle)
    ensures r.ValueError? <==> !useContrastColors && cycle != "light" && cycle != "dark"
    ensures r.ValueError? ==> r.message == CycleError
  {
    if useContrastColors then Ok(CategoricalCycle)
    else if cycle == "light" then Ok(LightCycle)
    else if cycle == "dark" then Ok(DarkCycle)
    else ValueError(CycleError)
  }

  /** The family order a selection lists its colours in. */
  function SelectedOrder(useContrastColors: bool): (r: seq<string>)
  {
    if useContrastColors then Reorder(SequentialOrder) else SequentialOrder
  }

  /** The variant a selection draws its colours from. */
  function SelectedVariant(cycle: string, useContrastColors: bool): (r: string)
  {
    if useContrastColors || cycle == "light" then LightKey else DarkKey
  }

  /** A successful selection is seven colours, the i-th being the selected
      variant of the i-th family of the selected order; with the contrast
      flag that is the light variant whatever the selector says. */
  lemma SelectedCycleTraces(cycle: string, useContrastColors: bool)
    ensures SelectCycle(cycle, useContrastColors).Ok? ==>
      var colors := SelectCycle(cycle, useContrastColors).value;
      |colors| == |SelectedOrder(useContrastColors)| == 7 &&
      forall i :: 0 <= i < 7 ==>
        TracesTo(colors[i], SelectedOrder(useContrastColors)[i], SelectedVariant(cycle, useContrastColors))
  {
    LightCycleOrder();
    DarkCycleMatchesLight();
    if useContrastColors {
      CategoricalReordersLight();
      forall i | 0 <= i < 7
        ensures TracesTo(CategoricalCycle[i], Reorder(SequentialOrder)[i], LightKey)
      {
        var j := [6, 2, 4, 3, 0, 1, 5][i];
        assert CategoricalCycle[i] == LightCycle[j] && Reorder(SequentialOrder)[i] == SequentialOrder[j];
      }
    }
  }

  // ------------------------------------------------------------------
  // The configuration update
  // ------------------------------------------------------------------

  /** `font.family`: a single name becomes a one-element list, a list is kept. */
  function FontFamily(baseFont: FontSpec): (r: seq<string>)
  {
    match baseFont
    case OneFont(name) => [name]
    case FontList(names) => names
  }

  /** The keys the applier writes, and no others. */
  const UpdateKeys: set<string> := {
    "figure.facecolor", "axes.facecolor", "savefig.facecolor",
    "axes.unicode_minus",
    "axes.prop_cycle",
    "axes.edgecolor", "axes.spines.top", "axes.spines.right",
    "axes.spines.left", "axes.spines.bottom", "axes.grid",
    "xtick.bottom", "ytick.left", "xtick.labelsize", "ytick.labelsize",
    "font.family", "text.color", "axes.labelcolor", "xtick.color", "ytick.color",
    "legend.frameon", "legend.labelcolor",
    "lines.linewidth", "patch.edgecolor"
  }

  /** The dictionary passed to the configuration's `update`. */
  function StyleUpdate(colors: seq<string>, showXAxis: bool, showYAxis: bool, baseFont: FontSpec): (r: map<string, Value>)
  {
    map[
      "figure.facecolor" := Str("none"),
      "axes.facecolor" := Str("none"),
      "savefig.facecolor" := Str("none"),
      "axes.unicode_minus" := Bool(false),
      "axes.prop_cycle" := Cycle(colors),
      "axes.edgecolor" := Str("#333333"),
      "axes.spines.top" := Bool(false),
      "axes.spines.right" := Bool(false),
      "axes.spines.left" := Bool(showYAxis),
      "axes.spines.bottom" := Bool(showXAxis),
      "axes.grid" := Bool(false),
      "xtick.bottom" := Bool(showXAxis),
      "ytick.left" := Bool(showYAxis),
      "xtick.labelsize" := Int(10),
      "ytick.labelsize" := Int(10),
      "font.family" := StrList(FontFamily(baseFont)),
      "text.color" := Str("#111111"),
      "axes.labelcolor" := Str("#111111"),
      "xtick.color" := Str("#666666"),
      "ytick.color" := Str("#666666"),
      "legend.frameon" := Bool(false),
      "legend.labelcolor" := Str("#666666"),
      "lines.linewidth" := Real(2.0),
      "patch.edgecolor" := Str("#111111")
    ]
  }

  /** The update writes exactly the fixed keys. */
  lemma UpdateKeysExact(colors: seq<string>, showXAxis: bool, showYAxis: bool, baseFont: FontSpec)
    ensures StyleUpdate(colors, showXAxis, showYAxis, baseFont).Keys == UpdateKeys
  {
  }

  /** The update installs exactly the selected colours as the cycle. */
  lemma UpdateCycle(colors: seq<string>, showXAxis: bool, showYAxis: bool, baseFont: FontSpec)
    ensures StyleUpdate(colors, showXAxis, showYAxis, baseFont)["axes.prop_cycle"] == Cycle(colors)
  {
  }

  /** The left spine and the left ticks follow `show_y_axis`. */
  lemma UpdateYAxis(colors: seq<string>, showXAxis: bool, showYAxis: bool, baseFont: FontSpec)
    ensures var u := StyleUpdate(colors, showXAxis, showYAxis, baseFont);
      u["axes.spines.left"] == u["ytick.left"] == Bool(showYAxis)
  {
  }

  /** The bottom spine and the bottom ticks follow `show_x_axis`. */
  lemma UpdateXAxis(colors: seq<string>, showXAxis: bool, showYAxis: bool, baseFont: FontSpec)
    ensures var u := StyleUpdate(colors, showXAxis, showYAxis, baseFont);
      u["axes.spines.bottom"] == u["xtick.bottom"] == Bool(showXAxis)
  {
  }

  /** The top and right spines, the grid and the legend frame are always off. */
  lemma UpdateHidesTopRight(colors: seq<string>, showXAxis: bool, showYAxis: bool, baseFont: FontSpec)
    ensures var u := StyleUpdate(colors, showXAxis, showYAxis, baseFont);
      u["axes.spines.top"] == u["axes.spines.right"] == Bool(false) &&
      u["axes.grid"] == u["legend.frameon"] == Bool(false)
  {
  }

  /** The backgrounds are transparent and the minus sign is plain ASCII. */
  lemma UpdateTransparent(colors: seq<string>, showXAxis: bool, showYAxis: bool, baseFont: FontSpec)
    ensures var u := StyleUpdate(colors, showXAxis, showYAxis, baseFont);
      u["figure.facecolor"] == u["axes.facecolor"] == u["savefig.facecolor"] == Str("none") &&
      u["axes.unicode_minus"] == Bool(false)
  {
  }

  /** Text, labels and patch edges are near-black; the axes edge is dark grey. */
  lemma UpdateDarkInk(colors: seq<string>, showXAxis: bool, showYAxis: bool, baseFont: FontSpec)
    ensures var u := StyleUpdate(colors, showXAxis, showYAxis, baseFont);
      u["text.color"] == u["axes.labelcolor"] == u["patch.edgecolor"] == Str("#111111") &&
      u["axes.edgecolor"] == Str("#333333")
  {
  }

  /** Tick labels and legend labels are mid grey. */
  lemma UpdateGreyInk(colors: seq<string>, showXAxis: bool, showYAxis: bool, baseFont: FontSpec)
    ensures var u := StyleUpdate(colors, showXAxis, showYAxis, baseFont);
      u["xtick.color"] == u["ytick.color"] == u["legend.labelcolor"] == Str("#666666")
  {
  }

  /** Tick labels are size 10 and lines are 2.0 wide. */
  lemma UpdateSizes(colors: seq<string>, showXAxis: bool, showYAxis: bool, baseFont: FontSpec)
    ensures var u := StyleUpdate(colors, showXAxis, showYAxis, baseFont);
      u["xtick.labelsize"] == u["ytick.labelsize"] == Int(10) &&
      u["lines.linewidth"] == Real(2.0)
  {
  }


  /** A single font name is wrapped in a list; a list is stored as given. */
  lemma UpdateFontFamily(colors: seq<string>, showXAxis: bool, showYAxis: bool, baseFont: FontSpec)
    ensures var u := StyleUpdate(colors, showXAxis, showYAxis, baseFont);
      u["font.family"] == StrList(if baseFont.OneFont? then [baseFont.name] else baseFont.names)
  {
  }

  // ------------------------------------------------------------------
  // The configuration after a call
  // ------------------------------------------------------------------

  /** The configuration `apply_dubois_style` leaves behind: the update
      written over the old configuration when a cycle can be chosen, and the
      error (with the configuration untouched) otherwise. */
  function StyledParams(params: map<string, Value>, o: StyleOptions): (r: Result<map<string, Value>>)
  {
    match SelectCycle(o.cycle, o.useContrastColors)
    case ValueError(message) => ValueError(message)
    case Ok(colors) => Ok(params + StyleUpdate(colors, o.showXAxis, o.showYAxis, o.baseFont))
  }

  /** The font files a call registers, in order. */
  function RegisteredFonts(o: StyleOptions): (r: seq<string>)
  {
    match o.customFontPaths
    case None => []
    case Some(paths) => paths
  }

  /** With the defaults of the signature the call succeeds: the light cycle,
      both axes hidden, "DejaVu Sans" as the only font, and no font file
      registered. */
  lemma DefaultStyle(params: map<string, Value>)
    ensures RegisteredFonts(DefaultOptions) == []
    ensures StyledParams(params, DefaultOptions).Ok?
    ensures var p := StyledParams(params, DefaultOptions).value;
      p["axes.prop_cycle"] == Cycle(LightCycle) &&
      p["font.family"] == StrList(["DejaVu Sans"]) &&
      p["axes.spines.left"] == p["axes.spines.bottom"] == Bool(false) &&
      p["ytick.left"] == p["xtick.bottom"] == Bool(false)
  {
    StyleWritesOptions(params, DefaultOptions);
  }

  /** The call fails exactly when the contrast flag is off and the selector
      is neither "light" nor "dark". */
  lemma StyleFailsOnlyOnBadCycle(params: map<string, Value>, o: StyleOptions)
    ensures StyledParams(params, o).ValueError? <==>
      !o.useContrastColors && o.cycle != "light" && o.cycle != "dark"
    ensures StyledParams(params, o).ValueError? ==> StyledParams(params, o).message == CycleError
  {
  }

  /** Only the fixed keys are written; every other key keeps its value. */
  lemma StyleKeepsOtherKeys(params: map<string, Value>, o: StyleOptions)
    ensures StyledParams(params, o).Ok? ==>
      var p := StyledParams(params, o).value;
      p.Keys == params.Keys + UpdateKeys &&
      forall k :: k in params && k !in UpdateKeys ==> p[k] == params[k]
  {
    var sel := SelectCycle(o.cycle, o.useContrastColors);
    if sel.Ok? {
      var u := StyleUpdate(sel.value, o.showXAxis, o.showYAxis, o.baseFont);
      UpdateKeysExact(sel.value, o.showXAxis, o.showYAxis, o.baseFont);
      OverwriteKeeps(params, u, UpdateKeys);
    }
  }

  /** Writing `u` over `m` changes no key outside `u`'s keys. */
  lemma OverwriteKeeps(m: map<string, Value>, u: map<string, Value>, keys: set<string>)
    requires u.Keys == keys
    ensures (m + u).Keys == m.Keys + keys
    ensures forall k :: k in m && k !in keys ==> (m + u)[k] == m[k]
  {
  }

  /** What a successful call stores under the axis, cycle and font keys. */
  lemma StyleWritesOptions(params: map<string, Value>, o: StyleOptions)
    ensures StyledParams(params, o).Ok? ==>
      var p := StyledParams(params, o).value;
      UpdateKeys <= p.Keys &&
      p["axes.spines.left"] == p["ytick.left"] == Bool(o.showYAxis) &&
      p["axes.spines.bottom"] == p["xtick.bottom"] == Bool(o.showXAxis) &&
      p["axes.spines.top"] == p["axes.spines.right"] == Bool(false) &&
      p["axes.prop_cycle"] == Cycle(SelectCycle(o.cycle, o.useContrastColors).value) &&
      p["font.family"] == StrList(if o.baseFont.OneFont? then [o.baseFont.name] else o.baseFont.names)
  {
    var sel := SelectCycle(o.cycle, o.useContrastColors);
    if sel.Ok? {
      var c, x, y, f := sel.value, o.showXAxis, o.showYAxis, o.baseFont;
      UpdateKeysExact(c, x, y, f);
      UpdateCycle(c, x, y, f);
      UpdateYAxis(c, x, y, f);
      UpdateXAxis(c, x, y, f);
      UpdateHidesTopRight(c, x, y, f);
      UpdateFontFamily(c, x, y, f);
    }
  }

  /** Applying the style twice with the same options leaves the same
      configuration as applying it once. */
  lemma StyleIdempotent(params: map<string, Value>, o: StyleOptions)
    ensures StyledParams(params, o).Ok? ==>
      StyledParams(StyledParams(params, o).value, o) == StyledParams(params, o)
  {
    var sel := SelectCycle(o.cycle, o.useContrastColors);
    if sel.Ok? {
      var u := StyleUpdate(sel.value, o.showXAxis, o.showYAxis, o.baseFont);
      assert params + u + u == params + u;
    }
  }

  /** With the contrast flag the selector is ignored, even one that would
      otherwise be rejected. */
  lemma ContrastIgnoresSelector(params: map<string, Value>, o: StyleOptions, other: string)
    requires o.useContrastColors
    ensures StyledParams(params, o).Ok?
    ensures StyledParams(params, o) == StyledParams(params, o.(cycle := other))
  {
  }

  // ------------------------------------------------------------------
  // The two pieces of global state
  // ------------------------------------------------------------------

  /** The plotting library's global configuration dictionary. */
  class RcParams {
    var params: map<string, Value>

    constructor (initial: map<string, Value>)
      ensures params == initial
    {
      params := initial;
    }

    /** Dictionary `update`: the given entries overwrite or extend the store. */
    method Update(entries: map<string, Value>)
      modifies this
      ensures params == old(params) + entries
    {
      params := params + entries;
    }
  }

  /** The plotting library's font registry; registering a file appends it. */
  class FontManager {
    var fonts: seq<string>

    constructor ()
      ensures fonts == []
    {
      fonts := [];
    }

    method AddFont(path: string)
      modifies this
      ensures fonts == old(fonts) + [path]
    {
      fonts := fonts + [path];
    }
  }

  /** Register each font file, in order. */
  method RegisterFonts(fm: FontManager, paths: seq<string>)
    modifies fm
    ensures fm.fonts == old(fm.fonts) + paths
  {
    for i := 0 to |paths|
      invariant fm.fonts == old(fm.fonts) + paths[..i]
    {
      fm.AddFont(paths[i]);
    }
  }

  /** `apply_dubois_style`: register the font files, choose the cycle (which
      may raise), then overwrite the fixed keys of the configuration. */
  method ApplyDuboisStyle(rc: RcParams, fm: FontManager, o: StyleOptions) returns (outcome: Result<()>)
    modifies rc, fm
    ensures fm.fonts == old(fm.fonts) + RegisteredFonts(o)
    ensures outcome.ValueError? <==> StyledParams(old(rc.params), o).ValueError?
    ensures outcome.ValueError? ==> outcome.message == CycleError && rc.params == old(rc.params)
    ensures outcome.Ok? ==> rc.params == StyledParams(old(rc.params), o).value
  {
    if o.customFontPaths.Some? {
      RegisterFonts(fm, o.customFontPaths.value);
    }
    var selected := SelectCycle(o.cycle, o.useContrastColors);
    if selected.ValueError? {
      return ValueError(selected.message);
    }
    rc.Update(StyleUpdate(selected.value, o.showXAxis, o.showYAxis, o.baseFont));
    outcome := Ok(());
  }

  // ------------------------------------------------------------------
  // The legend helper
  // ------------------------------------------------------------------

  /** An argument of a legend call: text, a number, a flag, an anchor point,
      or any other object (artist handles, label lists), named by identity. */
  datatype Arg =
    | Text(s: string)
    | Number(x: real)
    | Flag(b: bool)
    | Point(x: real, y: real)
    | Object(id: nat)

  /** What the axes' `legend` receives: positional and keyword arguments. */
  datatype LegendCall = LegendCall(args: seq<Arg>, kwargs: map<string, Arg>)

  /** A call either reaches `legend`, or fails with `TypeError` because a
      keyword is supplied both explicitly and through `**kwargs`. */
  datatype CallOutcome = Called(call: LegendCall) | DuplicateKeyword(names: set<string>)

  /** The keywords the outside placement passes explicitly. */
  const OutsideKeys: set<string> := {"loc", "bbox_to_anchor", "borderaxespad", "frameon"}

  /** Dictionary `pop(key, default)`: the value (or the default) and the
      dictionary without the key. */
  function Pop(kw: map<string, Arg>, key: string, default: Arg): (r: (Arg, map<string, Arg>))
  {
    (if key in kw then kw[key] else default, kw - {key})
  }

  /** Dictionary `setdefault(key, default)`: adds the key only if absent. */
  function SetDefault(kw: map<string, Arg>, key: string, default: Arg): (r: map<string, Arg>)
  {
    if key in kw then kw else kw[key := default]
  }

  /** A call `legend(*args, k=v, ..., **extra)`: explicit keywords and the
      unpacked dictionary must not share a name. */
  function Invoke(args: seq<Arg>, named: map<string, Arg>, extra: map<string, Arg>): (r: CallOutcome)
  {
    if named.Keys !! extra.Keys then Called(LegendCall(args, named + extra))
    else DuplicateKeyword(named.Keys * extra.Keys)
  }

  /** `dubois_legend`. Outside the axes: `loc` and `bbox_to_anchor` default
      to the centre-left point just right of the axes unless the caller gives
      them, the frame and border padding are forced off, and a caller's own
      `frameon` or `borderaxespad` is a duplicate keyword. Inside: `loc` and
      `frameon` are only filled in when absent. Everything else, and all
      positional arguments, pass through unchanged. */
  method DuboisLegend(args: seq<Arg>, kwargs: map<string, Arg>,
                      nameonly outside: bool := true, nameonly outsidePad: real := 0.02)
    returns (r: CallOutcome)
    ensures outside ==>
      (r.DuplicateKeyword? <==> "borderaxespad" in kwargs || "frameon" in kwargs)
    ensures outside && r.DuplicateKeyword? ==>
      r.names == kwargs.Keys * {"borderaxespad", "frameon"}
    ensures outside && r.Called? ==>
      r.call.args == args &&
      r.call.kwargs.Keys == kwargs.Keys + OutsideKeys &&
      r.call.kwargs["loc"] == (if "loc" in kwargs then kwargs["loc"] else Text("center left")) &&
      r.call.kwargs["bbox_to_anchor"] ==
        (if "bbox_to_anchor" in kwargs then kwargs["bbox_to_anchor"] else Point(1.0 + outsidePad, 0.5)) &&
      r.call.kwargs["borderaxespad"] == Number(0.0) &&
      r.call.kwargs["frameon"] == Flag(false) &&
      forall k :: k in kwargs && k !in OutsideKeys ==> r.call.kwargs[k] == kwargs[k]
    ensures !outside ==>
      r.Called? && r.call.args == args &&
      r.call.kwargs.Keys == kwargs.Keys + {"loc", "frameon"} &&
      (forall k :: k in kwargs ==> r.call.kwargs[k] == kwargs[k]) &&
      ("loc" !in kwargs ==> r.call.kwargs["loc"] == Text("best")) &&
      ("frameon" !in kwargs ==> r.call.kwargs["frameon"] == Flag(false))
  {
    var kw := kwargs;
    if outside {
      var popped := Pop(kw, "loc", Text("center left"));
      var loc := popped.0;
      kw := popped.1;
      popped := Pop(kw, "bbox_to_anchor", Point(1.0 + outsidePad, 0.5));
      var bbox := popped.0;
      kw := popped.1;
      var named := map["loc" := loc, "bbox_to_anchor" := bbox,
                       "borderaxespad" := Number(0.0), "frameon" := Flag(false)];
      assert named.Keys == OutsideKeys;
      assert kw.Keys == kwargs.Keys - {"loc", "bbox_to_anchor"};
      assert named.Keys * kw.Keys == kwargs.Keys * {"borderaxespad", "frameon"};
      r := Invoke(args, named, kw);
    } else {
      kw := SetDefault(kw, "loc", Text("best"));
      kw := SetDefault(kw, "frameon", Flag(false));
      r := Invoke(args, map[], kw);
    }
  }
}
