/** The style resolver of src/styles.ts: the token tables, the edge
    (margin/padding/border) resolver, the overflow resolver and the generic
    resolver shared by every box-like component.

    The size table is process-wide and callers change it at run time, so every
    resolver that reads it takes the current table as the parameter `sizes`;
    `DefaultSizes` is the table the module starts with. */
module Styles {
  import opened Js

  const DefaultSizes: map<string, string> := map[
    "small" := ".2rem",
    "default" := ".5rem",
    "medium" := ".8rem",
    "large" := "1rem",
    "xlarge" := "2.5rem",
    "xxlarge" := "4rem"
  ]

  /** `ALIGN_CONTENT` as styles.ts defines it. No resolver reads it: the box
      imports `ALIGN_CONTENT_MAP`, which styles.ts does not define, and the
      model takes that table as a parameter (`Tables.alignContentMap`). */
  const AlignContent: map<string, string> := map[
    "around" := "around",
    "center" := "center",
    "between" := "between",
    "stretch" := "stretch",
    "end" := "flex-end",
    "start" := "flex-start"
  ]

  /** Fractional basis tokens and the percentages they stand for. */
  const BasisTable: map<string, string> := map[
    "1/2" := "50%",
    "1/4" := "25%",
    "2/4" := "50%",
    "3/4" := "75%",
    "auto" := "auto",
    "full" := "100%",
    "1/3" := "33.33%",
    "2/3" := "66.66%"
  ]

  /** `JUSTIFY` as styles.ts defines it. No resolver reads it: the box imports
      `JUSTIFY_MAP`, which styles.ts does not define, and the model takes that
      table as a parameter (`Tables.justifyMap`). */
  const Justify: map<string, string> := map[
    "center" := "center",
    "end" := "flex-end",
    "start" := "flex-start",
    "around" := "space-around",
    "evenly" := "space-evenly",
    "between" := "space-between"
  ]

  /** Named flex presets: the grow and shrink part of the `flex` shorthand. */
  const FlexPresets: map<string, string> := map[
    "grow" := "1 0",
    "shrink" := "0 1"
  ]

  const AlignSelfMap: map<string, string> := map[
    "center" := "center",
    "end" := "flex-end",
    "start" := "flex-start",
    "stretch" := "stretch"
  ]

  const AlignMap: map<string, string> := map[
    "baseline" := "baseline",
    "center" := "center",
    "end" := "flex-end",
    "start" := "flex-start",
    "stretch" := "stretch"
  ]

  // ---------------------------------------------------------------------------
  // Edges

  datatype EdgeKind = Margin | Border | Padding {
    function Name(): string {
      match this
      case Margin => "margin"
      case Border => "border"
      case Padding => "padding"
    }
  }

  /** The four physical sides a longhand property can name. */
  datatype Side = Top | Right | Bottom | Left {
    function Name(): string {
      match this
      case Top => "top"
      case Right => "right"
      case Bottom => "bottom"
      case Left => "left"
    }

    /** Position in the order the resolver applies explicit sides. */
    function Index(): nat {
      match this
      case Top => 0
      case Right => 1
      case Bottom => 2
      case Left => 3
    }
  }

  /** A per-side edge specification; a missing field is `undefined`. */
  datatype Area = Area(
    horizontal: Option<string>,
    vertical: Option<string>,
    top: Option<string>,
    bottom: Option<string>,
    left: Option<string>,
    right: Option<string>)
  {
    /** The explicit value for one side, `data[side]`. */
    function Get(side: Side): Option<string> {
      match side
      case Top => top
      case Right => right
      case Bottom => bottom
      case Left => left
    }

    /** The axis shorthand that covers a side: horizontal for left and right,
        vertical for top and bottom. */
    function Axis(side: Side): Option<string> {
      if side.Left? || side.Right? then horizontal else vertical
    }
  }

  /** An edge property value: a size token, a raw length or a bare side name
      (all strings), or a per-side object. */
  datatype Edge = EdgeToken(token: string) | EdgeArea(area: Area) {
    predicate Truthy() {
      EdgeToken? ==> token != ""
    }
  }

  /** The strings that name a side rather than a size. */
  const SideNames: seq<string> := ["top", "right", "left", "bottom", "horizontal", "vertical"]

  /** `{ [name]: v }` for a side name: an area with only that field set. */
  function AreaWith(name: string, v: Option<string>): (a: Area)
    requires name in SideNames
    ensures a.horizontal == (if name == "horizontal" then v else None)
    ensures a.vertical == (if name == "vertical" then v else None)
    ensures forall side: Side :: a.Get(side) == (if name == side.Name() then v else None)
  {
    var none := Area(None, None, None, None, None, None);
    if name == "top" then none.(top := v)
    else if name == "right" then none.(right := v)
    else if name == "left" then none.(left := v)
    else if name == "bottom" then none.(bottom := v)
    else if name == "horizontal" then none.(horizontal := v)
    else none.(vertical := v)
  }

  function UpperCase(c: char): char {
    if 'a' <= c <= 'z' then (c as int - 'a' as int + 'A' as int) as char else c
  }

  /** Upper-case the first character, leave the rest. */
  function Capitalize(s: string): (r: string)
    ensures |r| == |s|
    ensures |s| > 0 ==> r[0] == UpperCase(s[0]) && r[1..] == s[1..]
  {
    if s == "" then s else [UpperCase(s[0])] + s[1..]
  }

  /** The longhand property for one side, `${kind}${capitalize(side)}`. */
  function Longhand(kind: EdgeKind, side: Side): string {
    kind.Name() + Capitalize(side.Name())
  }

  lemma LonghandSpelling(kind: EdgeKind)
    ensures Longhand(kind, Top) == kind.Name() + "Top"
    ensures Longhand(kind, Right) == kind.Name() + "Right"
    ensures Longhand(kind, Bottom) == kind.Name() + "Bottom"
    ensures Longhand(kind, Left) == kind.Name() + "Left"
  {
    assert Capitalize("top") == "Top";
    assert Capitalize("right") == "Right";
    assert Capitalize("bottom") == "Bottom";
    assert Capitalize("left") == "Left";
  }

  /** Different sides have different longhands, so writing one side never
      touches another. */
  lemma LonghandsDistinct(kind: EdgeKind)
    ensures forall s1: Side, s2: Side :: s1 != s2 ==> Longhand(kind, s1) != Longhand(kind, s2)
  {
    LonghandSpelling(kind);
    forall s1: Side, s2: Side | s1 != s2
      ensures Longhand(kind, s1) != Longhand(kind, s2)
    {
      assert |Longhand(kind, s1)| != |Longhand(kind, s2)|;
    }
  }

  /** Every longhand of a kind starts with the kind's own name. */
  lemma LonghandPrefix(kind: EdgeKind, side: Side)
    ensures |Longhand(kind, side)| > |kind.Name()|
    ensures Longhand(kind, side)[..|kind.Name()|] == kind.Name()
  {
    LonghandSpelling(kind);
  }

  function LonghandKeys(kind: EdgeKind): set<string> {
    {Longhand(kind, Top), Longhand(kind, Right), Longhand(kind, Bottom), Longhand(kind, Left)}
  }

  /** The value a side takes from its axis shorthand, if that is truthy. */
  function AxisValue(a: Area, side: Side, sizes: map<string, string>): Option<string> {
    var axis := a.Axis(side);
    if Present(axis) then Some(OrElse(sizes, axis.value)) else None
  }

  /** The value a side ends up with: its own truthy value wins over its axis
      shorthand; with neither, the side is not set. */
  function SideValue(a: Area, side: Side, sizes: map<string, string>): Option<string> {
    var own := a.Get(side);
    if Present(own) then Some(OrElse(sizes, own.value)) else AxisValue(a, side, sizes)
  }

  function SideDecl(kind: EdgeKind, a: Area, side: Side, sizes: map<string, string>): map<string, string> {
    match SideValue(a, side, sizes)
    case Some(v) => map[Longhand(kind, side) := v]
    case None => map[]
  }

  /** The declarations of a per-side object, one longhand per side that ends
      up with a value. */
  function AreaDecls(kind: EdgeKind, a: Area, sizes: map<string, string>): map<string, string> {
    SideDecl(kind, a, Top, sizes) + SideDecl(kind, a, Right, sizes)
      + SideDecl(kind, a, Bottom, sizes) + SideDecl(kind, a, Left, sizes)
  }

  /** What `edgeStyle(kind, data)` resolves to: a bare side name stands for
      that side set to the default size; any other string is the shorthand
      itself, resolved through the size table; an object goes side by side. */
  function EdgeDecls(kind: EdgeKind, data: Edge, sizes: map<string, string>): map<string, string> {
    match data
    case EdgeToken(s) =>
      if s in SideNames then AreaDecls(kind, AreaWith(s, Get(sizes, "default")), sizes)
      else map[kind.Name() := OrElse(sizes, s)]
    case EdgeArea(a) => AreaDecls(kind, a, sizes)
  }

  /** The declarations of a per-side object are exactly the longhands of the
      sides that end up with a value, each carrying that value. */
  lemma AreaDeclsExact(kind: EdgeKind, a: Area, sizes: map<string, string>)
    ensures AreaDecls(kind, a, sizes).Keys <= LonghandKeys(kind)
    ensures forall side: Side ::
      Longhand(kind, side) in AreaDecls(kind, a, sizes) <==> SideValue(a, side, sizes).Some?
    ensures forall side: Side :: SideValue(a, side, sizes).Some? ==>
      AreaDecls(kind, a, sizes)[Longhand(kind, side)] == SideValue(a, side, sizes).value
  {
    forall side: Side ensures
      && (Longhand(kind, side) in AreaDecls(kind, a, sizes) <==> SideValue(a, side, sizes).Some?)
      && (SideValue(a, side, sizes).Some? ==>
            AreaDecls(kind, a, sizes)[Longhand(kind, side)] == SideValue(a, side, sizes).value)
    {
      AreaDeclsAt(kind, a, sizes, side);
    }
  }

  lemma AreaDeclsAt(kind: EdgeKind, a: Area, sizes: map<string, string>, side: Side)
    ensures AreaDecls(kind, a, sizes).Keys <= LonghandKeys(kind)
    ensures Longhand(kind, side) in AreaDecls(kind, a, sizes) <==> SideValue(a, side, sizes).Some?
    ensures SideValue(a, side, sizes).Some? ==>
      AreaDecls(kind, a, sizes)[Longhand(kind, side)] == SideValue(a, side, sizes).value
  {
    LonghandsDistinct(kind);
    var t, r, b, l := SideDecl(kind, a, Top, sizes), SideDecl(kind, a, Right, sizes),
      SideDecl(kind, a, Bottom, sizes), SideDecl(kind, a, Left, sizes);
    assert t.Keys <= {Longhand(kind, Top)};
    assert r.Keys <= {Longhand(kind, Right)};
    assert b.Keys <= {Longhand(kind, Bottom)};
    assert l.Keys <= {Longhand(kind, Left)};
    var k := Longhand(kind, side);
    match side
    case Top =>
      assert k !in r && k !in b && k !in l;
    case Right =>
      assert k !in b && k !in l;
    case Bottom =>
      assert k !in l;
    case Left =>
  }

  /** The value a side holds once the explicit sides before position `done`
      have been applied over the axis shorthands. */
  function StagedValue(a: Area, side: Side, sizes: map<string, string>, done: nat): Option<string> {
    if side.Index() < done then SideValue(a, side, sizes) else AxisValue(a, side, sizes)
  }

  /** `styles` holds exactly the staged value of every side. */
  ghost predicate Staged(kind: EdgeKind, a: Area, sizes: map<string, string>, styles: map<string, string>, done: nat) {
    && styles.Keys <= LonghandKeys(kind)
    && (forall side: Side :: Longhand(kind, side) in styles <==> StagedValue(a, side, sizes, done).Some?)
    && (forall side: Side :: Longhand(kind, side) in styles ==>
          styles[Longhand(kind, side)] == StagedValue(a, side, sizes, done).value)
  }

  /** The axis shorthands, written first, give every side its axis value. */
  lemma StagedStart(kind: EdgeKind, a: Area, sizes: map<string, string>, afterH: map<string, string>, styles: map<string, string>)
    requires afterH == if Present(a.horizontal) then
      map[kind.Name() + "Left" := OrElse(sizes, a.horizontal.value)][kind.Name() + "Right" := OrElse(sizes, a.horizontal.value)]
      else map[]
    requires styles == if Present(a.vertical) then
      afterH[kind.Name() + "Bottom" := OrElse(sizes, a.vertical.value)][kind.Name() + "Top" := OrElse(sizes, a.vertical.value)]
      else afterH
    ensures Staged(kind, a, sizes, styles, 0)
  {
    LonghandSpelling(kind);
    LonghandsDistinct(kind);
  }

  /** Applying the explicit value of the side at position `i` advances the
      stage by one. */
  lemma StagedStep(kind: EdgeKind, a: Area, sizes: map<string, string>, styles: map<string, string>,
                   side: Side, next: map<string, string>)
    requires Staged(kind, a, sizes, styles, side.Index())
    requires next == if Present(a.Get(side)) then styles[Longhand(kind, side) := OrElse(sizes, a.Get(side).value)] else styles
    ensures Staged(kind, a, sizes, next, side.Index() + 1)
  {
    var key := Longhand(kind, side);
    forall other: Side ensures
      && (Longhand(kind, other) in next <==> StagedValue(a, other, sizes, side.Index() + 1).Some?)
      && (Longhand(kind, other) in next ==>
            next[Longhand(kind, other)] == StagedValue(a, other, sizes, side.Index() + 1).value)
    {
      if other != side {
        LonghandsDistinct(kind);
        assert Longhand(kind, other) != key;
      }
    }
    assert key in LonghandKeys(kind);
  }

  /** `edgeStyle` as the source runs it: the axis shorthands are written
      first, then the explicit sides in the order top, right, bottom, left, so
      an explicit side overwrites what its axis wrote. */
  method EdgeStyle(kind: EdgeKind, data: Edge, sizes: map<string, string>) returns (styles: map<string, string>)
    ensures styles == EdgeDecls(kind, data, sizes)
  {
    var area: Area;
    match data {
      case EdgeToken(s) =>
        if s in SideNames {
          area := AreaWith(s, Get(sizes, "default"));
        } else {
          return map[kind.Name() := OrElse(sizes, s)];
        }
      case EdgeArea(a) =>
        area := a;
    }
    styles := map[];
    if Present(area.horizontal) {
      var v := OrElse(sizes, area.horizontal.value);
      styles := styles[kind.Name() + "Left" := v][kind.Name() + "Right" := v];
    }
    ghost var afterH := styles;
    if Present(area.vertical) {
      var v := OrElse(sizes, area.vertical.value);
      styles := styles[kind.Name() + "Bottom" := v][kind.Name() + "Top" := v];
    }
    StagedStart(kind, area, sizes, afterH, styles);
    var sides := [Top, Right, Bottom, Left];
    for i := 0 to |sides|
      invariant Staged(kind, area, sizes, styles, i)
    {
      var side := sides[i];
      assert side.Index() == i;
      ghost var before := styles;
      var value := area.Get(side);
      if Present(value) {
        styles := styles[Longhand(kind, side) := OrElse(sizes, value.value)];
      }
      StagedStep(kind, area, sizes, before, side, styles);
    }
    StagedDone(kind, area, sizes, styles);
  }

  /** Once all four explicit sides are applied, the staged declarations are
      the declarations of the object. */
  lemma StagedDone(kind: EdgeKind, a: Area, sizes: map<string, string>, styles: map<string, string>)
    requires Staged(kind, a, sizes, styles, 4)
    ensures styles == AreaDecls(kind, a, sizes)
  {
    AreaDeclsExact(kind, a, sizes);
    SameLonghandDecls(kind, styles, AreaDecls(kind, a, sizes));
  }

  /** Two declaration maps over the longhands of one kind that agree on every
      side are the same map. */
  lemma SameLonghandDecls(kind: EdgeKind, m1: map<string, string>, m2: map<string, string>)
    requires m1.Keys <= LonghandKeys(kind) && m2.Keys <= LonghandKeys(kind)
    requires forall side: Side :: Longhand(kind, side) in m1 <==> Longhand(kind, side) in m2
    requires forall side: Side :: Longhand(kind, side) in m1 ==> m1[Longhand(kind, side)] == m2[Longhand(kind, side)]
    ensures m1 == m2
  {
    forall k | k in m1 ensures k in m2 && m1[k] == m2[k] {
      var side :| side in {Top, Right, Bottom, Left} && k == Longhand(kind, side);
    }
  }

  /** A non-side string sets exactly the shorthand `kind`, to the size the
      token names when it is a key with a truthy value, else to the string
      itself, unchanged. */
  lemma EdgeTokenResolves(kind: EdgeKind, s: string, sizes: map<string, string>)
    requires s !in SideNames
    ensures s in sizes && sizes[s] != "" ==> EdgeDecls(kind, EdgeToken(s), sizes) == map[kind.Name() := sizes[s]]
    ensures (s !in sizes || sizes[s] == "") ==> EdgeDecls(kind, EdgeToken(s), sizes) == map[kind.Name() := s]
  {
  }

  /** The size table is read when the edge is resolved: overriding one token
      changes what that token resolves to. */
  lemma EdgeReadsCurrentSizes(kind: EdgeKind, s: string, v: string, sizes: map<string, string>)
    requires s !in SideNames && v != ""
    ensures EdgeDecls(kind, EdgeToken(s), sizes[s := v]) == map[kind.Name() := v]
  {
  }

  /** Whether a bare side name covers a side. */
  predicate Covers(name: string, side: Side) {
    name == side.Name()
    || (name == "horizontal" && (side.Left? || side.Right?))
    || (name == "vertical" && (side.Top? || side.Bottom?))
  }

  /** A bare side name sets the longhands of the sides it covers, all to the
      default size (resolved once more through the table), and nothing else;
      with no truthy default it sets nothing. */
  lemma EdgeBareSide(kind: EdgeKind, name: string, sizes: map<string, string>)
    requires name in SideNames
    ensures EdgeDecls(kind, EdgeToken(name), sizes).Keys <= LonghandKeys(kind)
    ensures forall side: Side :: Longhand(kind, side) in EdgeDecls(kind, EdgeToken(name), sizes) <==>
      (Covers(name, side) && Present(Get(sizes, "default")))
    ensures forall side: Side :: Longhand(kind, side) in EdgeDecls(kind, EdgeToken(name), sizes) ==>
      EdgeDecls(kind, EdgeToken(name), sizes)[Longhand(kind, side)] == OrElse(sizes, sizes["default"])
  {
    AreaDeclsExact(kind, AreaWith(name, Get(sizes, "default")), sizes);
  }

  /** On an object, a longhand appears exactly for the sides whose own value
      or axis value is truthy; nothing else appears. */
  lemma EdgeAreaKeys(kind: EdgeKind, a: Area, sizes: map<string, string>)
    ensures EdgeDecls(kind, EdgeArea(a), sizes).Keys <= LonghandKeys(kind)
    ensures kind.Name() !in EdgeDecls(kind, EdgeArea(a), sizes)
    ensures forall side: Side :: Longhand(kind, side) in EdgeDecls(kind, EdgeArea(a), sizes) <==>
      (Present(a.Get(side)) || Present(a.Axis(side)))
  {
    AreaDeclsExact(kind, a, sizes);
    LonghandSpelling(kind);
  }

  /** An explicit truthy side always wins over its axis shorthand. */
  lemma EdgeExplicitSideWins(kind: EdgeKind, a: Area, side: Side, sizes: map<string, string>)
    requires Present(a.Get(side))
    ensures Longhand(kind, side) in EdgeDecls(kind, EdgeArea(a), sizes)
    ensures EdgeDecls(kind, EdgeArea(a), sizes)[Longhand(kind, side)] == OrElse(sizes, a.Get(side).value)
  {
    AreaDeclsExact(kind, a, sizes);
  }

  /** `horizontal` sets left and right, and `vertical` sets top and bottom, to
      one and the same resolved value, unless a side is given explicitly. */
  lemma EdgeAxisPairs(kind: EdgeKind, a: Area, sizes: map<string, string>)
    ensures var r := EdgeDecls(kind, EdgeArea(a), sizes);
      Present(a.horizontal) && !Present(a.left) && !Present(a.right) ==>
        Longhand(kind, Left) in r && Longhand(kind, Right) in r
        && r[Longhand(kind, Left)] == r[Longhand(kind, Right)] == OrElse(sizes, a.horizontal.value)
    ensures var r := EdgeDecls(kind, EdgeArea(a), sizes);
      Present(a.vertical) && !Present(a.top) && !Present(a.bottom) ==>
        Longhand(kind, Top) in r && Longhand(kind, Bottom) in r
        && r[Longhand(kind, Top)] == r[Longhand(kind, Bottom)] == OrElse(sizes, a.vertical.value)
  {
    AreaDeclsExact(kind, a, sizes);
  }

  /** Every key `edgeStyle` writes starts with the kind's name. */
  lemma EdgeKeysPrefixed(kind: EdgeKind, data: Edge, sizes: map<string, string>)
    ensures forall k :: k in EdgeDecls(kind, data, sizes) ==>
      |k| >= |kind.Name()| && k[..|kind.Name()|] == kind.Name()
  {
    match data
    case EdgeToken(s) =>
      if s in SideNames {
        AreaDeclsExact(kind, AreaWith(s, Get(sizes, "default")), sizes);
      }
    case EdgeArea(a) =>
      AreaDeclsExact(kind, a, sizes);
    LonghandPrefix(kind, Top);
    LonghandPrefix(kind, Right);
    LonghandPrefix(kind, Bottom);
    LonghandPrefix(kind, Left);
  }

  // ---------------------------------------------------------------------------
  // Overflow

  /** One overflow value for both axes, or one per axis. */
  datatype Overflow = OverflowAll(value: string) | OverflowAxes(horizontal: Option<string>, vertical: Option<string>) {
    predicate Truthy() {
      OverflowAll? ==> value != ""
    }
  }

  function OverflowDecls(o: Overflow): map<string, string> {
    match o
    case OverflowAll(v) => map["overflow" := v]
    case OverflowAxes(h, v) =>
      (if Present(h) then map["overflowX" := h.value] else map[])
        + (if Present(v) then map["overflowY" := v.value] else map[])
  }

  method OverflowStyle(overflowProp: Overflow) returns (style: map<string, string>)
    ensures style == OverflowDecls(overflowProp)
  {
    match overflowProp {
      case OverflowAll(v) =>
        return map["overflow" := v];
      case OverflowAxes(h, v) =>
        style := map[];
        if Present(h) {
          style := style["overflowX" := h.value];
        }
        if Present(v) {
          style := style["overflowY" := v.value];
        }
    }
  }

  /** A string sets only `overflow`; an object sets `overflowX` and
      `overflowY` exactly when the matching field is truthy, each to that
      field's value. */
  lemma OverflowShape(o: Overflow)
    ensures o.OverflowAll? ==> OverflowDecls(o) == map["overflow" := o.value]
    ensures o.OverflowAxes? ==>
      && OverflowDecls(o).Keys <= {"overflowX", "overflowY"}
      && ("overflowX" in OverflowDecls(o) <==> Present(o.horizontal))
      && ("overflowY" in OverflowDecls(o) <==> Present(o.vertical))
      && (Present(o.horizontal) ==> OverflowDecls(o)["overflowX"] == o.horizontal.value)
      && (Present(o.vertical) ==> OverflowDecls(o)["overflowY"] == o.vertical.value)
  {
  }

  // ---------------------------------------------------------------------------
  // Generic properties

  /** The properties every layout primitive accepts. */
  datatype GenericProps = GenericProps(
    alignSelf: Option<string>,
    gridArea: Option<string>,
    margin: Option<Edge>,
    padding: Option<Edge>)

  predicate EdgePresent(e: Option<Edge>) {
    e.Some? && e.value.Truthy()
  }

  function AlignSelfDecl(alignSelf: Option<string>): map<string, string> {
    if Present(alignSelf) && alignSelf.value in AlignSelfMap then map["alignSelf" := AlignSelfMap[alignSelf.value]]
    else map[]
  }

  function GridAreaDecl(gridArea: Option<string>): map<string, string> {
    if Present(gridArea) then map["gridArea" := gridArea.value] else map[]
  }

  function EdgeDeclsIf(kind: EdgeKind, e: Option<Edge>, sizes: map<string, string>): map<string, string> {
    if EdgePresent(e) then EdgeDecls(kind, e.value, sizes) else map[]
  }

  /** What `genericStyles` resolves to: align-self and grid-area, then the
      margin declarations, then the padding declarations, later ones winning. */
  function GenericDecls(props: GenericProps, sizes: map<string, string>): map<string, string> {
    AlignSelfDecl(props.alignSelf) + GridAreaDecl(props.gridArea)
      + EdgeDeclsIf(Margin, props.margin, sizes) + EdgeDeclsIf(Padding, props.padding, sizes)
  }

  method GenericStyles(props: GenericProps, sizes: map<string, string>) returns (styles: map<string, string>)
    ensures styles == GenericDecls(props, sizes)
  {
    styles := map[];
    if Present(props.alignSelf) && props.alignSelf.value in AlignSelfMap {
      styles := styles["alignSelf" := AlignSelfMap[props.alignSelf.value]];
    }
    if Present(props.gridArea) {
      styles := styles["gridArea" := props.gridArea.value];
    }
    assert styles == AlignSelfDecl(props.alignSelf) + GridAreaDecl(props.gridArea);
    if EdgePresent(props.margin) {
      var m := EdgeStyle(Margin, props.margin.value, sizes);
      styles := styles + m;
    }
    assert styles == AlignSelfDecl(props.alignSelf) + GridAreaDecl(props.gridArea)
      + EdgeDeclsIf(Margin, props.margin, sizes);
    if EdgePresent(props.padding) {
      var p := EdgeStyle(Padding, props.padding.value, sizes);
      styles := styles + p;
    }
  }

  /** Every key of `genericStyles` comes from a property that is present:
      align-self, grid-area, or a margin or padding declaration. */
  lemma GenericKeysFromProps(props: GenericProps, sizes: map<string, string>)
    ensures forall k :: k in GenericDecls(props, sizes) ==>
      || (k == "alignSelf" && Present(props.alignSelf))
      || (k == "gridArea" && Present(props.gridArea))
      || (EdgePresent(props.margin) && k in EdgeDecls(Margin, props.margin.value, sizes))
      || (EdgePresent(props.padding) && k in EdgeDecls(Padding, props.padding.value, sizes))
  {
  }

  /** Every declaration of `part` is in `whole` with the same value. */
  ghost predicate Keeps(whole: map<string, string>, part: map<string, string>) {
    forall k :: k in part ==> k in whole && whole[k] == part[k]
  }

  /** Every key of `m` begins with `prefix`. */
  ghost predicate KeysPrefixed(m: map<string, string>, prefix: string) {
    forall k :: k in m ==> |k| >= |prefix| && k[..|prefix|] == prefix
  }

  /** Margin and padding never overwrite each other or the align-self and
      grid-area declarations: every margin and padding declaration reaches
      the result unchanged. */
  lemma GenericKeepsEveryPart(props: GenericProps, sizes: map<string, string>)
    ensures Keeps(GenericDecls(props, sizes), EdgeDeclsIf(Margin, props.margin, sizes))
    ensures Keeps(GenericDecls(props, sizes), EdgeDeclsIf(Padding, props.padding, sizes))
  {
    GenericUnionKeepsParts(props, sizes);
  }

  /** Neither margin nor padding overwrites the align-self and grid-area
      declarations: align-self goes through its table and grid-area is kept
      verbatim. */
  lemma GenericKeepsOwnFields(props: GenericProps, sizes: map<string, string>)
    ensures Present(props.gridArea) ==> GenericDecls(props, sizes)["gridArea"] == props.gridArea.value
    ensures Present(props.alignSelf) && props.alignSelf.value in AlignSelfMap ==>
      GenericDecls(props, sizes)["alignSelf"] == AlignSelfMap[props.alignSelf.value]
  {
    GenericUnionKeepsParts(props, sizes);
  }

  /** The four parts of the generic union all survive in it. */
  lemma GenericUnionKeepsParts(props: GenericProps, sizes: map<string, string>)
    ensures Keeps(GenericDecls(props, sizes), AlignSelfDecl(props.alignSelf))
    ensures Keeps(GenericDecls(props, sizes), GridAreaDecl(props.gridArea))
    ensures Keeps(GenericDecls(props, sizes), EdgeDeclsIf(Margin, props.margin, sizes))
    ensures Keeps(GenericDecls(props, sizes), EdgeDeclsIf(Padding, props.padding, sizes))
  {
    var md, pd := EdgeDeclsIf(Margin, props.margin, sizes), EdgeDeclsIf(Padding, props.padding, sizes);
    var align, grid := AlignSelfDecl(props.alignSelf), GridAreaDecl(props.gridArea);
    assert align.Keys <= {"alignSelf"};
    assert grid.Keys <= {"gridArea"};
    EdgeDeclsIfPrefixed(Margin, props.margin, sizes);
    EdgeDeclsIfPrefixed(Padding, props.padding, sizes);
    UnionKeepsParts(align, grid, md, pd, GenericDecls(props, sizes));
  }

  lemma EdgeDeclsIfPrefixed(kind: EdgeKind, e: Option<Edge>, sizes: map<string, string>)
    ensures KeysPrefixed(EdgeDeclsIf(kind, e, sizes), kind.Name())
  {
    if EdgePresent(e) {
      EdgeKeysPrefixed(kind, e.value, sizes);
    }
  }

  /** The union `genericStyles` builds keeps each part when margin keys start
      with "margin" and padding keys with "padding". */
  lemma UnionKeepsParts(align: map<string, string>, grid: map<string, string>,
                        md: map<string, string>, pd: map<string, string>, all: map<string, string>)
    requires all == align + grid + md + pd
    requires align.Keys <= {"alignSelf"} && grid.Keys <= {"gridArea"}
    requires KeysPrefixed(md, Margin.Name()) && KeysPrefixed(pd, Padding.Name())
    ensures Keeps(all, md) && Keeps(all, pd) && Keeps(all, grid) && Keeps(all, align)
  {
    assert Margin.Name() == "margin" && Padding.Name() == "padding";
    assert "gridArea"[..6] != "margin" && "gridArea"[..7] != "padding" by {
      assert "gridArea"[0] == 'g';
    }
    assert "alignSelf"[..6] != "margin" && "alignSelf"[..7] != "padding" by {
      assert "alignSelf"[0] == 'a';
    }
    forall k | k in md ensures k !in pd {
      assert k[0] == k[..6][0] == 'm';
      if |k| >= 7 {
        assert k[..7][0] == 'm';
      }
    }
  }
}
