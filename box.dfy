/** The Box component builder of src/box.ts: the flex-family resolvers, the
    responsive (breakpoint-gated) expansion, the prop-forwarding rule, and the
    ordered list of style fragments the component's style template joins.

    The breakpoint table and the two alignment tables box.ts imports but
    styles.ts does not define are parameters, carried with the size table in
    `Tables`. */
module Box {
  import opened Js
  import opened Styles

  /** One interpolation of the style template: a raw CSS text, a style object,
      or nothing. Every falsy interpolation (`undefined`, `false`, `''`, `0`)
      is modelled as `NoStyle`. */
  datatype Fragment = Css(text: string) | Obj(decls: map<string, string>) | NoStyle

  /** The process-wide tables as they stand when a box is styled. */
  datatype Tables = Tables(
    sizes: map<string, string>,
    screenSizes: map<string, string>,
    alignContentMap: map<string, string>,
    justifyMap: map<string, string>)

  // ---------------------------------------------------------------------------
  // Basis

  /** `${BASIS[basis] || basis}`: a fractional token becomes its percentage,
      anything else passes through as its text. */
  function BasisText(basis: Scalar): string {
    OrElse(BasisTable, basis.Text())
  }

  /** `basisStyle(basis)`: a known basis token becomes its percentage; any
      other value passes through as its own text. */
  function BasisStyle(basis: Scalar): (css: string)
    ensures basis.Text() in BasisTable ==> css == "flex-basis: " + BasisTable[basis.Text()] + ";"
    ensures basis.Text() !in BasisTable ==> css == "flex-basis: " + basis.Text() + ";"
  {
    "flex-basis: " + BasisText(basis) + ";"
  }

  /** The fractional tokens resolve to their percentages. */
  lemma BasisResolution()
    ensures BasisStyle(Str("1/2")) == "flex-basis: 50%;"
    ensures BasisStyle(Str("2/3")) == "flex-basis: 66.66%;"
  {
  }

  // ---------------------------------------------------------------------------
  // Direction

  /** One line of a template literal indented by four spaces. */
  function Line(decl: string): string {
    "\n    " + decl
  }

  const DirectionMap: map<string, string> := map[
    "column" := DirectionStyle("column"),
    "row" := DirectionStyle("row"),
    "columnReverse" := DirectionStyle("column-reverse"),
    "rowReverse" := DirectionStyle("row-reverse")
  ]

  function Window(text: string, i: nat, n: nat): string
    requires i + n <= |text|
  {
    text[i..i + n]
  }

  /** `part` occurs somewhere in `text`. */
  predicate Contains(text: string, part: string) {
    exists i: nat :: i + |part| <= |text| && Window(text, i, |part|) == part
  }

  lemma ContainsLine(before: string, decl: string, after: string)
    ensures Contains(before + Line(decl) + after, decl)
  {
    var text := before + Line(decl) + after;
    var i := |before| + 5;
    assert text[i..i + |decl|] == decl;
    assert Window(text, i, |decl|) == decl;
  }

  /** `directionStyle(direction)`: the minimum sizes reset to zero, then the
      flow direction, one declaration per line. */
  function DirectionStyle(direction: string): (css: string)
    ensures Contains(css, "min-width: 0;")
    ensures Contains(css, "min-height: 0;")
    ensures Contains(css, "flex-direction: " + direction + ";")
  {
    var w, h, f := "min-width: 0;", "min-height: 0;", "flex-direction: " + direction + ";";
    ContainsLine("", w, Line(h) + Line(f) + "\n");
    assert "" + Line(w) + (Line(h) + Line(f) + "\n") == Line(w) + Line(h) + Line(f) + "\n";
    ContainsLine(Line(w), h, Line(f) + "\n");
    assert Line(w) + Line(h) + (Line(f) + "\n") == Line(w) + Line(h) + Line(f) + "\n";
    ContainsLine(Line(w) + Line(h), f, "\n");
    Line(w) + Line(h) + Line(f) + "\n"
  }

  /** The CSS `flex-direction` value each direction key stands for. */
  const FlowOf: map<string, string> := map[
    "column" := "column",
    "row" := "row",
    "columnReverse" := "column-reverse",
    "rowReverse" := "row-reverse"
  ]

  /** Every direction sets `min-width: 0` and `min-height: 0` together with
      its own `flex-direction`. */
  lemma DirectionMapEntries(key: string)
    requires key in DirectionMap
    ensures key in FlowOf
    ensures Contains(DirectionMap[key], "min-width: 0;")
    ensures Contains(DirectionMap[key], "min-height: 0;")
    ensures Contains(DirectionMap[key], "flex-direction: " + FlowOf[key] + ";")
  {
    assert DirectionMap[key] == DirectionStyle(FlowOf[key]);
  }

  // ---------------------------------------------------------------------------
  // Flex

  /** A flex value: a boolean, a preset name, or a grow/shrink/basis object. */
  datatype Flex = FlexFlag(on: bool) | FlexPreset(name: string)
    | FlexParts(grow: Option<Scalar>, shrink: Option<Scalar>, basis: Option<Scalar>)
  {
    predicate Truthy() {
      match this
      case FlexFlag(on) => on
      case FlexPreset(name) => name != ""
      case FlexParts(_, _, _) => true
    }
  }

  /** The grow and shrink part of the shorthand. */
  function GrowShrink(flex: Flex): string {
    match flex
    case FlexFlag(_) => "1 1"
    case FlexPreset(name) => Render(Get(FlexPresets, name))
    case FlexParts(grow, shrink, _) => ScalarText(grow) + " " + ScalarText(shrink)
  }

  /** The basis the shorthand uses: the outer one unless it is falsy and the
      flex object carries a truthy one. */
  function EffectiveBasis(flex: Flex, basis: Option<Scalar>): Option<Scalar> {
    if !ScalarPresent(basis) && flex.FlexParts? && ScalarPresent(flex.basis) then flex.basis else basis
  }

  function BasisPart(basis: Option<Scalar>): string {
    if ScalarPresent(basis) then BasisText(basis.value) else "auto"
  }

  /** What `flexStyle(flex, basis)` resolves to. */
  function FlexShorthand(flex: Flex, basis: Option<Scalar>): string {
    "flex: " + GrowShrink(flex) + " " + BasisPart(EffectiveBasis(flex, basis)) + "; "
  }

  method FlexStyle(flex: Flex, basis: Option<Scalar>) returns (css: string)
    ensures css == FlexShorthand(flex, basis)
  {
    var flexPart := "";
    var b := basis;
    if flex.FlexFlag? {
      flexPart := "1 1";
    }
    if flex.FlexParts? {
      flexPart := ScalarText(flex.grow) + " " + ScalarText(flex.shrink);
      if ScalarPresent(flex.basis) && !ScalarPresent(b) {
        b := flex.basis;
      }
    }
    if flex.FlexPreset? {
      flexPart := Render(Get(FlexPresets, flex.name));
    }
    var basisStyleDef := if ScalarPresent(b) then BasisText(b.value) else "auto";
    css := "flex: " + flexPart + " " + basisStyleDef + "; ";
  }

  /** A boolean flex grows and shrinks (`1 1`); a preset takes its grow and
      shrink from the preset table (`grow` is `1 0`, `shrink` is `0 1`); an
      unknown preset renders as "undefined". */
  lemma FlexFlagsAndPresets(on: bool, name: string)
    ensures GrowShrink(FlexFlag(on)) == "1 1"
    ensures GrowShrink(FlexPreset("grow")) == "1 0"
    ensures GrowShrink(FlexPreset("shrink")) == "0 1"
    ensures name !in FlexPresets ==> GrowShrink(FlexPreset(name)) == "undefined"
  {
  }

  /** A truthy outer basis always wins over the flex object's basis. */
  lemma FlexOuterBasisWins(flex: Flex, basis: Option<Scalar>)
    requires ScalarPresent(basis)
    ensures FlexShorthand(flex, basis) == "flex: " + GrowShrink(flex) + " " + BasisText(basis.value) + "; "
  {
  }

  /** The flex object's basis is used only when the outer basis is falsy. */
  lemma FlexInnerBasisFallback(grow: Option<Scalar>, shrink: Option<Scalar>, inner: Scalar, basis: Option<Scalar>)
    requires !ScalarPresent(basis) && inner.Truthy()
    ensures FlexShorthand(FlexParts(grow, shrink, Some(inner)), basis)
      == "flex: " + ScalarText(grow) + " " + ScalarText(shrink) + " " + BasisText(inner) + "; "
  {
  }

  /** With no truthy basis from either side, the basis part is `auto`. */
  lemma FlexAutoBasis(flex: Flex, basis: Option<Scalar>)
    requires !ScalarPresent(basis) && !(flex.FlexParts? && ScalarPresent(flex.basis))
    ensures FlexShorthand(flex, basis) == "flex: " + GrowShrink(flex) + " auto; "
  {
  }

  /** Grow and shrink are written verbatim, with no defaulting: a missing one
      renders as "undefined". */
  lemma FlexPartsVerbatim(grow: Option<Scalar>, shrink: Option<Scalar>, basis: Option<Scalar>)
    ensures GrowShrink(FlexParts(grow, shrink, basis)) == ScalarText(grow) + " " + ScalarText(shrink)
    ensures GrowShrink(FlexParts(None, shrink, basis)) == "undefined " + ScalarText(shrink)
    ensures GrowShrink(FlexParts(Some(Str("2")), Some(Str("1")), basis)) == "2 1"
  {
  }

  // ---------------------------------------------------------------------------
  // Fill

  /** A fill value: a boolean or an axis name. */
  datatype Fill = FillFlag(on: bool) | FillAxis(name: string) {
    predicate Truthy() {
      match this
      case FillFlag(on) => on
      case FillAxis(name) => name != ""
    }
  }

  function FillStyle(fill: Fill): (f: Fragment)
    ensures f == NoStyle <==> !fill.Truthy()
  {
    if fill == FillAxis("horizontal") then Css("width: 100%;")
    else if fill == FillAxis("vertical") then Css("height: 100%;")
    else if fill.Truthy() then Obj(map["width" := "100%", "height" := "100%"])
    else NoStyle
  }

  /** `horizontal` fills the width only, `vertical` the height only, `true`
      (or any other truthy value) both. */
  lemma FillCases()
    ensures FillStyle(FillAxis("horizontal")) == Css("width: 100%;")
    ensures FillStyle(FillAxis("vertical")) == Css("height: 100%;")
    ensures FillStyle(FillFlag(true)) == Obj(map["width" := "100%", "height" := "100%"])
    ensures FillStyle(FillFlag(false)) == NoStyle && FillStyle(FillAxis("")) == NoStyle
  {
  }

  // ---------------------------------------------------------------------------
  // Responsive values

  /** A value given once, or one value per breakpoint name in the order
      `Object.entries` lists them. */
  datatype Responsive = Single(key: string) | PerScreen(entries: seq<(string, string)>) {
    predicate Truthy() {
      Single? ==> key != ""
    }
  }

  /** `toStyle(key)`: with a property name, `name: value;`; with none, the
      table's value itself, which may be missing. */
  function ToStyle(cssName: string, table: map<string, string>, key: string): Option<string>
  {
    if cssName != "" then Some(cssName + ": " + Render(Get(table, key)) + ";") else Get(table, key)
  }

  /** The block one breakpoint entry adds, gated by that breakpoint's current
      media condition. */
  function MediaBlock(entry: (string, string), cssName: string, table: map<string, string>,
                      screenSizes: map<string, string>): string {
    "@media(" + Render(Get(screenSizes, entry.0)) + ") { " + Render(ToStyle(cssName, table, entry.1)) + "; } "
  }

  function MediaBlocks(entries: seq<(string, string)>, cssName: string, table: map<string, string>,
                       screenSizes: map<string, string>): (blocks: seq<string>)
    ensures |blocks| == |entries|
    ensures forall i :: 0 <= i < |entries| ==> blocks[i] == MediaBlock(entries[i], cssName, table, screenSizes)
  {
    if entries == [] then [] else
      var last := |entries| - 1;
      MediaBlocks(entries[..last], cssName, table, screenSizes) + [MediaBlock(entries[last], cssName, table, screenSizes)]
  }

  /** The strings joined in order. */
  function Concat(parts: seq<string>): string {
    if parts == [] then "" else Concat(parts[..|parts| - 1]) + parts[|parts| - 1]
  }

  /** What `responsiveStyle(prop, cssName, table)` resolves to. */
  function ResponsiveFragment(prop: Responsive, cssName: string, table: map<string, string>,
                              screenSizes: map<string, string>): Fragment {
    match prop
    case PerScreen(entries) => Css(Concat(MediaBlocks(entries, cssName, table, screenSizes)))
    case Single(key) =>
      match ToStyle(cssName, table, key)
      case Some(text) => Css(text)
      case None => NoStyle
  }

  method ResponsiveStyle(prop: Responsive, cssName: string, table: map<string, string>,
                         screenSizes: map<string, string>) returns (f: Fragment)
    ensures f == ResponsiveFragment(prop, cssName, table, screenSizes)
  {
    match prop {
      case PerScreen(entries) =>
        var styles := "";
        for i := 0 to |entries|
          invariant styles == Concat(MediaBlocks(entries[..i], cssName, table, screenSizes))
        {
          var (sz, key) := entries[i];
          var block := "@media(" + Render(Get(screenSizes, sz)) + ") { " + Render(ToStyle(cssName, table, key)) + "; } ";
          MediaBlocksGrow(entries, i, cssName, table, screenSizes);
          styles := styles + block;
        }
        assert entries[..|entries|] == entries;
        return Css(styles);
      case Single(key) =>
        var text := ToStyle(cssName, table, key);
        if text.Some? {
          return Css(text.value);
        }
        return NoStyle;
    }
  }

  /** Expanding one more entry appends that entry's block. */
  lemma MediaBlocksGrow(entries: seq<(string, string)>, i: nat, cssName: string, table: map<string, string>,
                        screenSizes: map<string, string>)
    requires i < |entries|
    ensures Concat(MediaBlocks(entries[..i + 1], cssName, table, screenSizes))
      == Concat(MediaBlocks(entries[..i], cssName, table, screenSizes)) + MediaBlock(entries[i], cssName, table, screenSizes)
  {
    assert entries[..i + 1][..i] == entries[..i];
  }

  /** A breakpoint map yields exactly one block per entry, in entry order,
      each gated by the condition the breakpoint table holds for that entry. */
  lemma ResponsiveOneBlockPerEntry(entries: seq<(string, string)>, cssName: string, table: map<string, string>,
                                   screenSizes: map<string, string>)
    ensures exists blocks: seq<string> ::
      && ResponsiveFragment(PerScreen(entries), cssName, table, screenSizes) == Css(Concat(blocks))
      && |blocks| == |entries|
      && forall i :: 0 <= i < |entries| ==>
           (blocks[i] == "@media(" + Render(Get(screenSizes, entries[i].0)) + ") { "
                         + Render(ToStyle(cssName, table, entries[i].1)) + "; } ")
  {
    var blocks := MediaBlocks(entries, cssName, table, screenSizes);
    assert ResponsiveFragment(PerScreen(entries), cssName, table, screenSizes) == Css(Concat(blocks));
  }

  /** A single value is not gated: it is `toStyle` of the value. With a
      property name that is `name: table[value];`; with none (the direction
      slot) it is the table's text itself, and an unknown value adds nothing. */
  lemma ResponsiveSingle(key: string, cssName: string, table: map<string, string>, screenSizes: map<string, string>)
    ensures cssName != "" ==>
      ResponsiveFragment(Single(key), cssName, table, screenSizes) == Css(cssName + ": " + Render(Get(table, key)) + ";")
    ensures cssName == "" && key in table ==> ResponsiveFragment(Single(key), cssName, table, screenSizes) == Css(table[key])
    ensures cssName == "" && key !in table ==> ResponsiveFragment(Single(key), cssName, table, screenSizes) == NoStyle
  {
  }

  /** `{ bp: key }` yields one block gated by the breakpoint's condition as the
      table holds it when the style is resolved: changing the table entry
      changes the emitted block. */
  lemma ResponsiveReadsCurrentBreakpoints(bp: string, key: string, cssName: string, table: map<string, string>,
                                          screenSizes: map<string, string>, condition: string)
    requires bp in screenSizes && screenSizes[bp] != condition
    ensures ResponsiveFragment(PerScreen([(bp, key)]), cssName, table, screenSizes[bp := condition])
      == Css(MediaBlock((bp, key), cssName, table, screenSizes[bp := condition]))
    ensures MediaBlock((bp, key), cssName, table, screenSizes[bp := condition])
      == "@media(" + condition + ") { " + Render(ToStyle(cssName, table, key)) + "; } "
    ensures ResponsiveFragment(PerScreen([(bp, key)]), cssName, table, screenSizes[bp := condition])
      != ResponsiveFragment(PerScreen([(bp, key)]), cssName, table, screenSizes)
  {
    var rest := Render(ToStyle(cssName, table, key));
    SingleEntryBlock((bp, key), cssName, table, screenSizes);
    SingleEntryBlock((bp, key), cssName, table, screenSizes[bp := condition]);
    BlocksDifferInCondition(screenSizes[bp], condition, rest);
  }

  lemma SingleEntryBlock(entry: (string, string), cssName: string, table: map<string, string>,
                         screenSizes: map<string, string>)
    ensures ResponsiveFragment(PerScreen([entry]), cssName, table, screenSizes)
      == Css(MediaBlock(entry, cssName, table, screenSizes))
  {
    var blocks := MediaBlocks([entry], cssName, table, screenSizes);
    assert blocks == [MediaBlock(entry, cssName, table, screenSizes)];
    assert Concat(blocks) == Concat(blocks[..0]) + blocks[0];
  }

  /** Two blocks with the same body but different conditions differ. */
  lemma BlocksDifferInCondition(c1: string, c2: string, rest: string)
    requires c1 != c2
    ensures "@media(" + c1 + ") { " + rest + "; } " != "@media(" + c2 + ") { " + rest + "; } "
  {
    var tail := ") { " + rest + "; } ";
    var b1, b2 := "@media(" + c1 + ") { " + rest + "; } ", "@media(" + c2 + ") { " + rest + "; } ";
    assert b1 == "@media(" + c1 + tail;
    assert b2 == "@media(" + c2 + tail;
    if |c1| != |c2| {
      assert |b1| != |b2|;
    } else {
      var j :| 0 <= j < |c1| && c1[j] != c2[j];
      assert b1[7 + j] == c1[j];
      assert b2[7 + j] == c2[j];
    }
  }

  // ---------------------------------------------------------------------------
  // Wrap

  /** A wrap value: a boolean or a named variant. */
  datatype Wrap = WrapFlag(on: bool) | WrapVariant(name: string) {
    predicate Truthy() {
      match this
      case WrapFlag(on) => on
      case WrapVariant(name) => name != ""
    }
  }

  const WrapVariants: map<string, string> := map["reverse" := "wrap-reverse"]

  /** `wrapStyle(wrap)`: only `false` adds nothing; otherwise a style object
      that sets at most `flexWrap`, to `wrap` for `true` and to the variant's
      value for a known variant. */
  function WrapStyle(wrap: Wrap): (f: Fragment)
    ensures f == NoStyle <==> wrap == WrapFlag(false)
    ensures f != NoStyle ==> f.Obj? && f.decls.Keys <= {"flexWrap"}
    ensures wrap == WrapFlag(true) ==> f.decls == map["flexWrap" := "wrap"]
    ensures wrap.WrapVariant? && wrap.name in WrapVariants ==> f.decls == map["flexWrap" := WrapVariants[wrap.name]]
  {
    match wrap
    case WrapFlag(on) => if on then Obj(map["flexWrap" := "wrap"]) else NoStyle
    case WrapVariant(name) =>
      if name in WrapVariants then Obj(map["flexWrap" := WrapVariants[name]]) else Obj(map[])
  }

  /** `true` wraps, `false` sets nothing, `reverse` wraps in reverse. */
  lemma WrapCases()
    ensures WrapStyle(WrapFlag(true)) == Obj(map["flexWrap" := "wrap"])
    ensures WrapStyle(WrapFlag(false)) == NoStyle
    ensures WrapStyle(WrapVariant("reverse")) == Obj(map["flexWrap" := "wrap-reverse"])
  {
  }

  // ---------------------------------------------------------------------------
  // Width and height

  /** A size given as one length, or as optional bounds. */
  datatype Extent = Length(value: string) | Bounds(max: Option<string>, min: Option<string>) {
    predicate Truthy() {
      Length? ==> value != ""
    }
  }

  datatype Dimension = Width | Height {
    function Name(): string {
      if Width? then "width" else "height"
    }

    function MaxKey(): string {
      if Width? then "maxWidth" else "maxHeight"
    }

    function MinKey(): string {
      if Width? then "minWidth" else "minHeight"
    }
  }

  /** What `widthStyle(w)` (for `Width`) and `heightStyle(w)` (for `Height`)
      resolve to. */
  function ExtentFragment(dim: Dimension, e: Extent): Fragment {
    match e
    case Length(s) => Css(dim.Name() + ": " + s + "; ")
    case Bounds(max, min) =>
      Obj((if Present(max) then map[dim.MaxKey() := max.value] else map[])
        + (if Present(min) then map[dim.MinKey() := min.value] else map[]))
  }

  method ExtentStyle(dim: Dimension, w: Extent) returns (f: Fragment)
    ensures f == ExtentFragment(dim, w)
  {
    match w {
      case Bounds(max, min) =>
        var c := map[];
        if Present(max) {
          c := c[dim.MaxKey() := max.value];
        }
        if Present(min) {
          c := c[dim.MinKey() := min.value];
        }
        return Obj(c);
      case Length(s) =>
        return Css(dim.Name() + ": " + s + "; ");
    }
  }

  /** Bounds set only the bounds that are present, each to its own value. */
  lemma ExtentBounds(dim: Dimension, max: Option<string>, min: Option<string>)
    ensures ExtentFragment(dim, Bounds(max, min)).Obj?
    ensures var d := ExtentFragment(dim, Bounds(max, min)).decls;
      && d.Keys <= {dim.MaxKey(), dim.MinKey()}
      && (dim.MaxKey() in d <==> Present(max))
      && (dim.MinKey() in d <==> Present(min))
      && (Present(max) ==> d[dim.MaxKey()] == max.value)
      && (Present(min) ==> d[dim.MinKey()] == min.value)
  {
  }

  // ---------------------------------------------------------------------------
  // Gap

  /** A gap value: a boolean or a size token or raw length. */
  datatype Gap = GapFlag(on: bool) | GapToken(token: string) {
    predicate Truthy() {
      match this
      case GapFlag(on) => on
      case GapToken(token) => token != ""
    }
  }

  /** What `gapStyle(gap)` resolves to. */
  function GapFragment(gap: Gap, sizes: map<string, string>): Fragment {
    match gap
    case GapFlag(on) => if on then Obj(map["gap" := OrElse(sizes, "default")]) else NoStyle
    case GapToken(token) => Obj(map["gap" := OrElse(sizes, token)])
  }

  method GapStyle(gapProp: Gap, sizes: map<string, string>) returns (f: Fragment)
    ensures f == GapFragment(gapProp, sizes)
  {
    var gap: string;
    match gapProp {
      case GapFlag(on) =>
        if on {
          gap := "default";
        } else {
          return NoStyle;
        }
      case GapToken(token) =>
        gap := token;
    }
    var size := OrElse(sizes, gap);
    return Obj(map["gap" := size]);
  }

  /** `true` is the default size; a size token is its table value; any other
      string passes through unchanged. */
  lemma GapCases(token: string, sizes: map<string, string>)
    ensures GapFragment(GapFlag(true), sizes) == GapFragment(GapToken("default"), sizes)
    ensures token in sizes && sizes[token] != "" ==> GapFragment(GapToken(token), sizes) == Obj(map["gap" := sizes[token]])
    ensures token !in sizes ==> GapFragment(GapToken(token), sizes) == Obj(map["gap" := token])
    ensures GapFragment(GapFlag(true), DefaultSizes) == Obj(map["gap" := ".5rem"])
  {
  }

  // ---------------------------------------------------------------------------
  // Forwarding

  /** The props the component consumes; every other prop reaches the element. */
  const OwnProps: seq<string> := [
    "basis", "align", "alignContent", "direction", "overflowProp", "flex", "justify", "as",
    "gap", "height", "width", "fill", "wrap", "margin", "pad", "padding", "alignSelf", "gridArea"
  ]

  /** `!OWN_PROPS.includes(prop)`. The own-prop list is every declared prop
      except `className`, plus `as` and `overflowProp`; every other prop
      reaches the element. */
  function ShouldForwardProp(prop: string): (forward: bool)
    ensures forward <==> prop !in (BoxPropNames - {"className"}) + {"as", "overflowProp"}
  {
    prop !in OwnProps
  }

  /** The prop names the component's props declare. */
  const BoxPropNames: set<string> := {
    "align", "alignContent", "direction", "justify", "flex", "basis", "gap", "height", "width",
    "fill", "wrap", "className", "pad", "alignSelf", "gridArea", "margin", "padding"
  }

  /** Every prop the component declares, except `className`, is consumed. */
  lemma LayoutPropsConsumed(prop: string)
    requires prop in BoxPropNames && prop != "className"
    ensures !ShouldForwardProp(prop)
  {
    if prop == "basis" { assert OwnProps[0] == prop; }
    else if prop == "align" { assert OwnProps[1] == prop; }
    else if prop == "alignContent" { assert OwnProps[2] == prop; }
    else if prop == "direction" { assert OwnProps[3] == prop; }
    else if prop == "flex" { assert OwnProps[5] == prop; }
    else if prop == "justify" { assert OwnProps[6] == prop; }
    else if prop == "gap" { assert OwnProps[8] == prop; }
    else if prop == "height" { assert OwnProps[9] == prop; }
    else if prop == "width" { assert OwnProps[10] == prop; }
    else if prop == "fill" { assert OwnProps[11] == prop; }
    else if prop == "wrap" { assert OwnProps[12] == prop; }
    else if prop == "margin" { assert OwnProps[13] == prop; }
    else if prop == "pad" { assert OwnProps[14] == prop; }
    else if prop == "padding" { assert OwnProps[15] == prop; }
    else if prop == "alignSelf" { assert OwnProps[16] == prop; }
    else { assert OwnProps[17] == prop; }
  }

  /** `className`, `id` and any other DOM attribute reach the element; the
      two props outside the declared ones that the component still consumes
      are `as` and `overflowProp`. */
  lemma ForwardingRule()
    ensures ShouldForwardProp("className") && ShouldForwardProp("id")
    ensures !ShouldForwardProp("as") && !ShouldForwardProp("overflowProp")
  {
    assert OwnProps[4] == "overflowProp" && OwnProps[7] == "as";
  }

  // ---------------------------------------------------------------------------
  // The style template

  /** The props a box accepts, each `None` when not given. */
  datatype BoxProps = BoxProps(
    align: Option<Responsive>,
    alignContent: Option<Responsive>,
    direction: Option<Responsive>,
    justify: Option<Responsive>,
    overflow: Option<Overflow>,
    flex: Option<Flex>,
    basis: Option<Scalar>,
    gap: Option<Gap>,
    height: Option<Extent>,
    width: Option<Extent>,
    fill: Option<Fill>,
    wrap: Option<Wrap>,
    pad: Option<Edge>,
    generic: GenericProps)

  predicate ResponsivePresent(r: Option<Responsive>) {
    r.Some? && r.value.Truthy()
  }

  predicate FlexPresent(f: Option<Flex>) {
    f.Some? && f.value.Truthy()
  }

  /** `prop && responsiveStyle(prop, cssName, table)`. */
  function ResponsiveSlot(r: Option<Responsive>, cssName: string, table: map<string, string>,
                          screenSizes: map<string, string>): Fragment {
    if ResponsivePresent(r) then ResponsiveFragment(r.value, cssName, table, screenSizes) else NoStyle
  }

  function OverflowSlot(o: Option<Overflow>): Fragment {
    if o.Some? && o.value.Truthy() then Obj(OverflowDecls(o.value)) else NoStyle
  }

  /** `flex && flexStyle(flex, basis)`. */
  function FlexSlotFragment(flex: Option<Flex>, basis: Option<Scalar>): Fragment {
    if FlexPresent(flex) then Css(FlexShorthand(flex.value, basis)) else NoStyle
  }

  /** `!flex && basis && basisStyle(basis)`. */
  function BasisSlotFragment(flex: Option<Flex>, basis: Option<Scalar>): Fragment {
    if !FlexPresent(flex) && ScalarPresent(basis) then Css(BasisStyle(basis.value)) else NoStyle
  }

  function GapSlot(gap: Option<Gap>, sizes: map<string, string>): Fragment {
    if gap.Some? && gap.value.Truthy() then GapFragment(gap.value, sizes) else NoStyle
  }

  function ExtentSlot(dim: Dimension, e: Option<Extent>): Fragment {
    if e.Some? && e.value.Truthy() then ExtentFragment(dim, e.value) else NoStyle
  }

  function FillSlot(fill: Option<Fill>): Fragment {
    if fill.Some? && fill.value.Truthy() then FillStyle(fill.value) else NoStyle
  }

  function WrapSlot(wrap: Option<Wrap>): Fragment {
    if wrap.Some? && wrap.value.Truthy() then WrapStyle(wrap.value) else NoStyle
  }

  function PadSlot(pad: Option<Edge>, sizes: map<string, string>): Fragment {
    if EdgePresent(pad) then Obj(EdgeDecls(Padding, pad.value, sizes)) else NoStyle
  }

  /** The fixed declarations every box starts with. */
  const BaseRules := "display: flex; box-sizing: border-box; outline: none;"

  /** Positions of the flex and standalone basis fragments. */
  const FlexSlot := 6
  const BasisSlot := 7

  /** The base rules, then the alignment, direction and overflow fragments. */
  function LeadFragments(p: BoxProps, t: Tables): seq<Fragment> {
    [ Css(BaseRules),
      ResponsiveSlot(p.align, "align-items", AlignMap, t.screenSizes),
      ResponsiveSlot(p.alignContent, "align-content", t.alignContentMap, t.screenSizes),
      ResponsiveSlot(p.direction, "", DirectionMap, t.screenSizes),
      ResponsiveSlot(p.justify, "justify-content", t.justifyMap, t.screenSizes),
      OverflowSlot(p.overflow)
    ]
  }

  /** The gap, size, fill, wrap and padding fragments, then the generic
      declarations. */
  function TailFragments(p: BoxProps, t: Tables): seq<Fragment> {
    [ GapSlot(p.gap, t.sizes),
      ExtentSlot(Height, p.height),
      ExtentSlot(Width, p.width),
      FillSlot(p.fill),
      WrapSlot(p.wrap),
      PadSlot(p.pad, t.sizes),
      Obj(GenericDecls(p.generic, t.sizes))
    ]
  }

  /** The fragments the style template joins, in template order. Every box
      starts with the base rules and ends with the generic declarations, and
      flex and the standalone basis are never both emitted. */
  function BoxFragments(p: BoxProps, t: Tables): (r: seq<Fragment>)
    ensures |r| == 15
    ensures r[0] == Css(BaseRules)
    ensures r[14] == Obj(GenericDecls(p.generic, t.sizes))
    ensures r[FlexSlot] == NoStyle || r[BasisSlot] == NoStyle
  {
    LeadFragments(p, t) + ([FlexSlotFragment(p.flex, p.basis), BasisSlotFragment(p.flex, p.basis)] + TailFragments(p, t))
  }

  /** Positions 0 to 5 of the template are the lead fragments, in order. */
  lemma LeadSlots(p: BoxProps, t: Tables)
    ensures BoxFragments(p, t)[0] == LeadFragments(p, t)[0] && BoxFragments(p, t)[1] == LeadFragments(p, t)[1]
    ensures BoxFragments(p, t)[2] == LeadFragments(p, t)[2] && BoxFragments(p, t)[3] == LeadFragments(p, t)[3]
    ensures BoxFragments(p, t)[4] == LeadFragments(p, t)[4] && BoxFragments(p, t)[5] == LeadFragments(p, t)[5]
  {
  }

  /** Positions 8 to 14 of the template are the tail fragments, in order. */
  lemma TailSlots(p: BoxProps, t: Tables)
    ensures BoxFragments(p, t)[8] == TailFragments(p, t)[0] && BoxFragments(p, t)[9] == TailFragments(p, t)[1]
    ensures BoxFragments(p, t)[10] == TailFragments(p, t)[2] && BoxFragments(p, t)[11] == TailFragments(p, t)[3]
    ensures BoxFragments(p, t)[12] == TailFragments(p, t)[4] && BoxFragments(p, t)[13] == TailFragments(p, t)[5]
    ensures BoxFragments(p, t)[14] == TailFragments(p, t)[6]
  {
  }

  /** The flex fragment comes before the standalone basis, and the basis is
      emitted on its own only when flex is absent: with flex present the
      outer basis is absorbed into the flex shorthand, where it wins. */
  lemma FlexAbsorbsBasis(p: BoxProps, t: Tables)
    ensures FlexSlot < BasisSlot
    ensures FlexPresent(p.flex) ==> BoxFragments(p, t)[BasisSlot] == NoStyle
    ensures !FlexPresent(p.flex) ==> BoxFragments(p, t)[FlexSlot] == NoStyle
    ensures !FlexPresent(p.flex) && ScalarPresent(p.basis) ==>
      BoxFragments(p, t)[BasisSlot] == Css("flex-basis: " + BasisText(p.basis.value) + ";")
    ensures FlexPresent(p.flex) && ScalarPresent(p.basis) ==>
      BoxFragments(p, t)[FlexSlot] == Css("flex: " + GrowShrink(p.flex.value) + " " + BasisText(p.basis.value) + "; ")
  {
  }

  /** A prop that is missing or falsy adds nothing to its slot, whatever the
      other props and the tables are; only the base rules and the generic
      declarations are always there. */
  lemma FalsyPropsAddNothing(p: BoxProps, t: Tables)
    ensures !FlexPresent(p.flex) ==> BoxFragments(p, t)[FlexSlot] == NoStyle
    ensures !ScalarPresent(p.basis) ==> BoxFragments(p, t)[BasisSlot] == NoStyle
    ensures !(p.gap.Some? && p.gap.value.Truthy()) ==> BoxFragments(p, t)[8] == NoStyle
    ensures !(p.height.Some? && p.height.value.Truthy()) ==> BoxFragments(p, t)[9] == NoStyle
    ensures !(p.width.Some? && p.width.value.Truthy()) ==> BoxFragments(p, t)[10] == NoStyle
    ensures !(p.fill.Some? && p.fill.value.Truthy()) ==> BoxFragments(p, t)[11] == NoStyle
    ensures !(p.wrap.Some? && p.wrap.value.Truthy()) ==> BoxFragments(p, t)[12] == NoStyle
    ensures !EdgePresent(p.pad) ==> BoxFragments(p, t)[13] == NoStyle
  {
    TailSlots(p, t);
  }

  /** The same for the three alignment slots. */
  lemma FalsyAlignmentPropsAddNothing(p: BoxProps, t: Tables)
    ensures !ResponsivePresent(p.align) ==> BoxFragments(p, t)[1] == NoStyle
    ensures !ResponsivePresent(p.alignContent) ==> BoxFragments(p, t)[2] == NoStyle
    ensures !ResponsivePresent(p.justify) ==> BoxFragments(p, t)[4] == NoStyle
  {
    LeadSlots(p, t);
  }

  /** The same for the direction and overflow slots. */
  lemma FalsyDirectionPropsAddNothing(p: BoxProps, t: Tables)
    ensures !ResponsivePresent(p.direction) ==> BoxFragments(p, t)[3] == NoStyle
    ensures !(p.overflow.Some? && p.overflow.value.Truthy()) ==> BoxFragments(p, t)[5] == NoStyle
  {
    LeadSlots(p, t);
  }

  /** The falsy values of each prop are exactly `false`, `''` and `0`: every
      object form and every breakpoint map is truthy. */
  lemma FalsyValues()
    ensures forall v: Scalar :: !v.Truthy() <==> v == Str("") || v == Num(0)
    ensures forall r: Responsive :: !r.Truthy() <==> r == Single("")
    ensures forall o: Overflow :: !o.Truthy() <==> o == OverflowAll("")
    ensures forall f: Flex :: !f.Truthy() <==> f == FlexFlag(false) || f == FlexPreset("")
    ensures forall g: Gap :: !g.Truthy() <==> g == GapFlag(false) || g == GapToken("")
    ensures forall e: Extent :: !e.Truthy() <==> e == Length("")
    ensures forall f: Fill :: !f.Truthy() <==> f == FillFlag(false) || f == FillAxis("")
    ensures forall w: Wrap :: !w.Truthy() <==> w == WrapFlag(false) || w == WrapVariant("")
    ensures forall e: Edge :: !e.Truthy() <==> e == EdgeToken("")
  {
  }
}
