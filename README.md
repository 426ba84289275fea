# Boxible layout resolvers in Dafny

Boxible's `Box` is a flex container. Each of its layout props is turned into a
style fragment by a small resolver. A fragment is raw CSS text, a
property→value object, or nothing. The component's style template then joins
these fragments in a fixed order. This project models those resolvers, the
rule that decides which props reach the DOM element, and the ordered fragment
list. It proves what each resolver emits for every shape of input.

Three modules:

- `Js` (js.dfy) holds the JavaScript value semantics the resolvers depend on:
  - optional values;
  - truthiness (`''`, `0`, `false` and a missing value are falsy);
  - how a template literal renders a value (a missing one renders as `undefined`);
  - the `table[key] || key` lookup.
- `Styles` (styles.dfy) models src/styles.ts:
  - the token tables;
  - the edge resolver (margin, padding, border);
  - the overflow resolver;
  - the generic resolver.
- `Box` (box.dfy) models src/box.ts:
  - the basis, direction, flex, fill, responsive, wrap, width/height and gap resolvers;
  - the prop-forwarding predicate;
  - the template as a list of fragments.

Some source functions build their result step by step: edge, generic, overflow,
flex, responsive, width/height and gap. Each of these is a `method` with the
same steps and loops. Its postcondition ties the result to a declarative
function, and the properties are proved about that function.

The size table is mutable at run time, so every resolver that reads it takes
it as a parameter `sizes`. The same holds for the breakpoint table and for the
two alignment tables box.ts imports but styles.ts does not define. The
template takes all four together as `Tables`. `Styles.DefaultSizes` is the
size table as the module first defines it.

## Model

| member | source | states |
|---|---|---|
| Js.OrElse | src/styles.ts:128 | `table[key] \|\| key`: the table's value when the key maps to a non-empty value, the key itself when the key is missing, and never empty for a non-empty key |
| Styles.Capitalize | src/styles.ts:143 | upper-cases the first character and keeps the length and the rest of the string |
| Styles.AreaWith | src/styles.ts:125-126 | `{ [name]: v }` for a side name sets exactly that side of the area and no other |
| Styles.LonghandSpelling | src/styles.ts:134-143 | the per-side longhands are `<kind>Top`, `<kind>Right`, `<kind>Bottom` and `<kind>Left` |
| Styles.LonghandsDistinct | src/styles.ts:134-143 | different sides write different keys, so one side never overwrites another |
| Styles.LonghandPrefix | src/styles.ts:134-143 | every longhand begins with the kind's name |
| Styles.AreaDeclsExact | src/styles.ts:131-147 | an area's declarations are exactly one longhand per side that ends up with a value, and each carries that value |
| Styles.AreaDeclsAt | src/styles.ts:131-147 | for one side: its longhand is present exactly when the side ends up with a value, and then it holds that value |
| Styles.EdgeStyle | src/styles.ts:120-148 | the step-by-step resolver (axes first, then top, right, bottom, left in that order) yields exactly the declarative edge declarations |
| Styles.EdgeTokenResolves | src/styles.ts:124-129 | a string that is not a side name gives exactly `{kind: sizes[s]}` when s names a truthy size, and otherwise `{kind: s}` unchanged |
| Styles.EdgeReadsCurrentSizes | src/styles.ts:6-13 | the size table is read at resolution time: overriding a token's size changes what that token resolves to |
| Styles.EdgeBareSide | src/styles.ts:118-126 | a bare side name sets exactly the longhands of the sides it covers to the default size, and with no truthy default it sets nothing |
| Styles.EdgeAreaKeys | src/styles.ts:131-147 | on an object, a longhand appears exactly for the sides whose own value or axis value is truthy, and no other key appears (not even the bare kind) |
| Styles.EdgeExplicitSideWins | src/styles.ts:133-145 | an explicit truthy side always wins over the value its axis shorthand wrote |
| Styles.EdgeAxisPairs | src/styles.ts:133-138 | `horizontal` gives left and right one and the same resolved value, and `vertical` does the same for top and bottom |
| Styles.EdgeKeysPrefixed | src/styles.ts:120-148 | every key the edge resolver writes begins with the kind's name |
| Styles.OverflowStyle | src/styles.ts:108-116 | the step-by-step resolver yields exactly the declarative overflow declarations |
| Styles.OverflowShape | src/styles.ts:108-116 | a string sets only `overflow`; an object sets `overflowX` or `overflowY` exactly when that field is truthy, each to the field's value |
| Styles.GenericStyles | src/styles.ts:85-100 | the step-by-step merge yields align-self, then grid-area, then the margin declarations, then the padding declarations |
| Styles.GenericKeysFromProps | src/styles.ts:85-100 | every key of the result comes from a prop that is present |
| Styles.GenericKeepsEveryPart | src/styles.ts:85-100 | every margin and padding declaration reaches the result unchanged: neither part overwrites the other |
| Styles.GenericKeepsOwnFields | src/styles.ts:85-100 | the later margin and padding merges never overwrite align-self (taken through its table) or grid-area (kept verbatim) |
| Styles.EdgeDeclsIfPrefixed | src/styles.ts:93-98 | the margin or padding part contributes only keys that begin with its kind's name |
| Box.BasisStyle | src/box.ts:10-12 | `flex-basis: BASIS[basis] \|\| basis;`: a value whose text is a basis token becomes that token's percentage, and any other value passes through as its own text |
| Box.BasisResolution | src/box.ts:10-12 | the fractions `1/2` and `2/3` become `50%` and `66.66%` |
| Box.DirectionStyle | src/box.ts:16-20 | a direction's CSS declares `min-width: 0;`, `min-height: 0;` and `flex-direction: <direction>;` |
| Box.DirectionMapEntries | src/box.ts:22-27 | every entry of the direction map sets both minimum sizes to zero and the `flex-direction` of its own key |
| Box.FlexStyle | src/box.ts:38-56 | the step-by-step resolver, which reassigns the basis, yields the declarative `flex` shorthand |
| Box.FlexFlagsAndPresets | src/box.ts:40-51 | a boolean flex grows and shrinks (`1 1`); `grow` is `1 0` and `shrink` is `0 1`; an unknown preset renders as `undefined` |
| Box.FlexOuterBasisWins | src/box.ts:45-55 | a truthy outer basis always wins over the flex object's basis |
| Box.FlexInnerBasisFallback | src/box.ts:45-47 | the flex object's truthy basis is used only when the outer basis is falsy |
| Box.FlexAutoBasis | src/box.ts:53-55 | with no truthy basis from either side, the shorthand ends in `auto` |
| Box.FlexPartsVerbatim | src/box.ts:44 | grow and shrink are interpolated verbatim with no defaulting, so a missing one renders as `undefined` |
| Box.FillStyle | src/box.ts:58-69 | the fill fragment is nothing exactly when the fill value is falsy |
| Box.FillCases | src/box.ts:58-69 | `horizontal` fills the width only, `vertical` the height only, `true` both, and `false` or `''` nothing |
| Box.MediaBlocks | src/box.ts:82-84 | one block per breakpoint entry, in entry order, each being that entry's media block |
| Box.ResponsiveStyle | src/box.ts:73-88 | the loop that appends one `@media` block per entry yields the declarative responsive fragment |
| Box.ResponsiveOneBlockPerEntry | src/box.ts:81-85 | a breakpoint map yields the concatenation of exactly one block per entry, in order, each gated by that breakpoint's condition from the table |
| Box.ResponsiveSingle | src/box.ts:79-87 | a single value is not gated: with a CSS name it is `name: table[value];`; with an empty name it is the table's entry verbatim, or nothing when the table has no such entry |
| Box.ResponsiveReadsCurrentBreakpoints | src/box.ts:83 | the breakpoint condition is read at resolution time: changing the table entry changes the emitted block to the new condition |
| Box.WrapStyle | src/box.ts:96-101 | the wrap fragment is nothing exactly for `false`; otherwise it is an object with at most the `flexWrap` key: `wrap` for `true`, and the table's value for a known variant |
| Box.WrapCases | src/box.ts:96-101 | `true` wraps, `false` adds nothing, and `reverse` wraps in reverse |
| Box.ExtentStyle | src/box.ts:108-128 | the step-by-step width/height resolver yields the declarative fragment |
| Box.ExtentBounds | src/box.ts:108-128 | min/max bounds set only the bounds that are present (`maxWidth`/`maxHeight`, `minWidth`/`minHeight`), each to its own value |
| Box.GapStyle | src/box.ts:130-141 | the step-by-step gap resolver, which reassigns the gap, yields the declarative gap fragment |
| Box.GapCases | src/box.ts:130-141 | `true` is the default size, a size token is its table value, and any other string passes through unchanged |
| Box.ShouldForwardProp | src/box.ts:143-167 | a prop is consumed exactly when it is one of the declared props other than `className`, or `as` or `overflowProp`; every other prop, `className` included, is forwarded to the element |
| Box.LayoutPropsConsumed | src/box.ts:143-167 | every prop the component declares, except `className`, is in the own-prop list and so is not forwarded |
| Box.ForwardingRule | src/box.ts:160-167 | `className` and `id`, which are not in the own-prop list, reach the element, while `as` and `overflowProp`, which the props interface does not declare, are consumed |
| Box.BoxFragments | src/box.ts:165-186 | the template is fifteen fragments: it always starts with the base rules and ends with the generic declarations, and the flex shorthand and the standalone basis are never both emitted |
| Box.FlexAbsorbsBasis | src/box.ts:165-178 | in the template the flex fragment precedes the basis fragment; the standalone basis appears only when flex is falsy, and then as `flex-basis: <basis>;`; with flex present, the outer basis goes into the shorthand |
| Box.FalsyPropsAddNothing | src/box.ts:177-184 | for all props and tables: a falsy or missing flex, basis, gap, height, width, fill, wrap or pad leaves its own position empty |
| Box.FalsyAlignmentPropsAddNothing | src/box.ts:172-175 | for all props and tables: a falsy or missing align, align-content or justify leaves its own position empty |
| Box.FalsyDirectionPropsAddNothing | src/box.ts:174-176 | for all props and tables: a falsy or missing direction or overflow leaves its own position empty |
| Box.FalsyValues | src/box.ts:172-184 | for each prop type, the falsy values are exactly `false`, `''` and `0`: every object form and every breakpoint map is truthy |

## Left out

- The emotion `styled('div', …)` call and its CSS injection are a foreign library. The template is modelled as the ordered list of fragments it joins; the whitespace between fragments is not modelled.
- The `Box` export and the attachment of the breakpoint table to it are type plumbing.
- React rendering and the snapshot tests are not modelled, and neither are the Jest and Babel configuration files.
- The `theme` argument of `genericStyles` is unused.
- `responsiveStyle` also accepts a function as `cssName`. No caller passes one, so only the string form is modelled.
- Numbers are integers. Fractions, `NaN` and their renderings are not modelled. Integers are written in plain decimal, whereas JavaScript writes a number of magnitude 1e21 or more in exponent form (`1e+21`), and integers above 2^53 are not exact in JavaScript.
- Every falsy interpolation (`undefined`, `false`, `''`, `0`) is modelled as adding no rule. With a basis of `0` and no flex, src/box.ts:178 hands the number 0 to the styling library, whose treatment of it is not part of this model.
- An `Area` side or axis is modelled as a string. Numeric side values are not modelled: the `Area` fields are typed as size tokens or strings, though an untyped caller could pass a number.
- Lookups such as `SIZES[x]` with an inherited key (`toString`, `constructor`) are not modelled. Such keys are treated as missing.
- Object key insertion order is not modelled. Style objects are maps.
- Box.WrapStyle: an unknown wrap variant yields `{ flexWrap: undefined }` in the source. The model yields an empty object, because a key whose value is undefined is modelled as absent.
- Styles.GenericStyles: an `alignSelf` outside the align-self table sets `alignSelf` to undefined in the source. The model leaves the key out, for the same reason.
- Behaviour the code does not have:
  - grow/shrink defaulting or a `false`→0 conversion for structured flex (the parts are interpolated verbatim);
  - withholding `className` from the element (it is not in the own-prop list, so it is forwarded);
  - a utility that extracts layout props from a prop bag (none exists in src/box.ts or src/styles.ts);
  - resetting minimum sizes for the column directions only (every direction resets them).
- `capitalize` is imported from a util module that is not part of this model. It is modelled as upper-casing the first ASCII letter.
- The breakpoint table and the align-content and justify tables are not defined in src/styles.ts. They are modelled as arbitrary parameters.
