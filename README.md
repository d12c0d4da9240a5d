# ContainerDiv attribute-to-style reconciler

`ContainerDiv` is a custom HTML element. It turns declarative spacing attributes into inline CSS style properties:

- `p`, `px`, `py`, `pt`, `pr`, `pb`, `pl` for padding;
- `m`, `mx`, `my`, `mt`, `mr`, `mb`, `ml` for margin;
- `rowgap` and `colgap` for the flex gaps;
- `direction`.

Each spacing attribute may name one of seven size tokens (`zero`, `xs`, `sm`, `md`, `lg`, `xl`, `xxl`), and each token has a default CSS value (`"0"` or `"var(--t)"`).

`updateAttributes` visits the 16 spacing attributes in a fixed order. For each one, it either writes the named token's default into every CSS property the attribute controls, or clears those properties when the value is absent, empty or not a token. It then writes the `direction` property. `connectedCallback` first makes the element a flex container with an `all <ms>ms` transition, and `attributeChangedCallback` reconciles again.

The project has five files:

- `wrappers.dfy`: an `Option` type. It stands for an absent attribute, an unrecognised token and a cleared style property.
- `tables.dfy` (module `Tables`): the constant tables.
  - The token list and its defaults.
  - The attribute order, the observed attribute names, and the attribute-to-properties map.
  - For each managed property, the attribute that writes it last (`LastWriter`, `Decider`).
- `reconcile.dfy` (module `Reconciler`): `updateAttributes` as a pure function `Reconcile(style, attrs)`.
  - It is defined step by step, exactly as the loops run.
  - Its properties are proved: last writer wins, the frame, the closed form, history independence, idempotence, and that unobserved attributes have no effect.
- `decimal.dfy` (module `Decimal`): the decimal spelling of the duration in the transition declaration, and its injectivity.
- `container_div.dfy` (module `ContainerDivs`): the element as a class.
  - Its fields are the attributes (`attrs`), the inline style (`style`) and the transition duration (`transitionMs`).
  - `UpdateAttributes` runs the nested loops in place and is proved equal to `Reconcile`.
  - The two lifecycle callbacks are methods a caller invokes.

The attributes are a `map<string, string>`: a missing name is one `getAttribute` reports as `null`. The style is a map from key (`Tables.Prop`) to string, and clearing a property removes its key. `Other(name)` is the key of any other property name. No `Other` key is spelled as one of the 15 camel-case names the element writes, so distinct keys have distinct names (`Tables.PropNameInjective`).

Facts about the code that the model keeps:

- There are seven tokens; there is no `xxs` token.
- The `var(--t)` values have no fallback.
- There is no `transition` attribute. The transition is always `all <ms>ms`, from the constructor's duration.
- The code writes `style.direction`, not `flexDirection`.
- Processing order matters, because attributes share properties: `px` and `pl` both control `paddingLeft`, for example. The attribute visited later wins.

In this model, assigning `undefined` to a style property removes it. The single-edge attributes (`pl`, `pr`, `pt`, `pb`, `ml`, `mr`, `mt`, `mb`) come after the axis attributes and always write or clear their property, so, in this model:

- `px`, `py`, `mx` and `my` never decide any property. `Reconciler.AxisAttributesNeverDecide` proves that removing one of them never changes the style.
- With `px="md"` and `rowgap="xs"`, `paddingLeft` and `paddingRight` end up cleared (`Reconciler.ScenarioPxRowgap`).

## Model

| member | source | states |
|---|---|---|
| Tables.Sizes | src/index.ts:62 | the token list has seven distinct tokens, the first being `zero` |
| Tables.SizesEnumerate | src/index.ts:62 | every token is in the token list |
| Tables.ParseSize | src/index.ts:95 | membership test of an attribute value in the token list: a recognised token is spelled exactly as the value, and no token is spelled as a rejected value |
| Tables.ParseSizeName | src/index.ts:62 | every token's own spelling is recognised as that token |
| Tables.EmptyIsNoSize | src/index.ts:95 | the empty value is not a token, so the truthiness test before the membership test never changes the outcome |
| Tables.Default | src/index.ts:82-90 | `zero` resolves to `"0"` and every other token `t` to `"var(--t)"` |
| Tables.DefaultInjective | src/index.ts:82-90 | distinct tokens have distinct defaults |
| Tables.AttrMap | src/index.ts:63-80 | the CSS properties each spacing attribute controls, in the order they are written; its shape is `AttrMapShape`, its families `AttrMapFamilies` |
| Tables.PropNameRoundTrip | src/index.ts:63-80 | reading a key's property name back gives the key for the properties the element writes, and nothing for any other key |
| Tables.PropNameInjective | src/index.ts:63-80 | distinct style keys have distinct declaration names; no `Other` key is spelled as one of the camel-case names the element writes |
| Tables.AttrNameInjective | src/index.ts:38-60 | attribute names identify spacing attributes, and none of them is `direction` |
| Tables.SizeAttributes | src/index.ts:38-55 | the processing order lists 16 distinct attributes |
| Tables.SizeAttributesEnumerate | src/index.ts:38-55 | every spacing attribute is in the processing order |
| Tables.ObservedAttributes | src/index.ts:57-60 | the observed names are the spacing attribute names in processing order, followed by `direction` |
| Tables.ObservedAttributesExactly | src/index.ts:57-60 | a name is observed if and only if it is `direction` or a spacing attribute name |
| Tables.AttrMapShape | src/index.ts:63-80 | every attribute controls one or two distinct properties: `p` and `m` one shorthand each, exactly `px`, `py`, `mx` and `my` two longhands, the others one |
| Tables.AttrMapFamilies | src/index.ts:63-80 | padding attributes control only `padding*` properties, margin attributes only `margin*` properties, and the gap attributes only `rowGap` and `columnGap` |
| Tables.ManagedIsUnion | src/index.ts:63-80 | the managed properties are exactly the union of the attribute map's ranges |
| Tables.LastWriter | src/index.ts:38-80 | for each managed property, the position of the last attribute in processing order whose map holds it, with no later attribute holding it |
| Tables.DeciderIsLastWriter | src/index.ts:38-80 | the deciding attribute of each managed property is the one at its last-writer position |
| Reconciler.Recognize | src/index.ts:94-95 | an attribute value yields a token exactly when it is present and spells that token; an absent value or one that spells no token yields none |
| Reconciler.EffectMeaning | src/index.ts:94-105 | an attribute's step writes token t's default if and only if the attribute's value is t's name, and clears if and only if the value names no token or is absent |
| Reconciler.DirectionValue | src/index.ts:107-108 | the direction written is `"row"` if and only if the attribute is exactly `"row"`, and `"column"` otherwise |
| Reconciler.Effect | src/index.ts:94-104 | an attribute that is absent or empty clears the properties it controls; the full meaning is `EffectMeaning` |
| Reconciler.WriteAll | src/index.ts:96-104 | the inner loop changes no property outside the attribute's list |
| Reconciler.Run | src/index.ts:93-106 | the outer loop over the attributes in order, each step applying the inner loop; its properties are `RunLastWriter` and `RunUntouched` |
| Reconciler.Reconcile | src/index.ts:92-109 | the whole of `updateAttributes`: the outer loop, then the `direction` write, whose value the contract states |
| Reconciler.WriteAllAt | src/index.ts:96-104 | after the inner loop, each listed property holds the step's value or is cleared, and every other property is unchanged |
| Reconciler.RunLastWriter | src/index.ts:93-106 | last writer wins: after the outer loop, a property holds what the last attribute whose map contains it wrote |
| Reconciler.RunUntouched | src/index.ts:93-106 | a property no attribute controls keeps its old value through the outer loop |
| Reconciler.ReconcileManaged | src/index.ts:92-106 | after `updateAttributes`, each managed property holds its deciding attribute's default, or is cleared |
| Reconciler.ReconcileDirection | src/index.ts:107-108 | after `updateAttributes`, `direction` is `"row"` when the attribute is `"row"` and `"column"` otherwise, absent included |
| Reconciler.ReconcileFrame | src/index.ts:92-109 | `updateAttributes` leaves every property that is neither managed nor `direction` unchanged, `display` and `transition` included |
| Reconciler.ReconcileAt | src/index.ts:92-109 | the value of each property after `updateAttributes`: direction, managed or untouched |
| Reconciler.DeclaredStyle | src/index.ts:92-109 | the style declared by the attributes alone holds only managed properties and `direction`, and always holds `direction` |
| Reconciler.DeclaredAt | src/index.ts:92-109 | the unmanaged part of a style overlaid with the declared style holds, for each property, the value `updateAttributes` gives it |
| Reconciler.ReconcileClosedForm | src/index.ts:92-109 | `updateAttributes` is the old style with its managed properties and `direction` replaced by the declared style |
| Reconciler.ReconcileHistoryIndependent | src/index.ts:92-109 | the managed properties and `direction` after `updateAttributes` do not depend on the style before it |
| Reconciler.ReconcileSettles | src/index.ts:92-109 | `updateAttributes` always leaves a style that agrees with the attributes |
| Reconciler.SettledIsFixpoint | src/index.ts:92-109 | a style agrees with the attributes if and only if `updateAttributes` leaves it unchanged |
| Reconciler.ReconcileIdempotent | src/index.ts:117-119 | reconciling twice with the same attributes gives the same style as reconciling once |
| Reconciler.ReconcileReadsObservedOnly | src/index.ts:57-60 | two attribute maps that agree on the observed names give the same style |
| Reconciler.AxisAttributeNeverDecidesAt | src/index.ts:38-80 | removing `px`, `py`, `mx` or `my` changes no single property of the updated style |
| Reconciler.AxisAttributesNeverDecide | src/index.ts:38-80 | removing `px`, `py`, `mx` or `my` leaves the updated style unchanged, because a later single-edge attribute always writes or clears each property they control |
| Reconciler.PlDecidesPaddingLeft | src/index.ts:38-55 | `px` controls `paddingLeft`, but `pl` comes later and decides it |
| Reconciler.ScenarioPxRowgap | src/index.ts:92-109 | with `px="md"` and `rowgap="xs"`, `paddingLeft` and `paddingRight` end up cleared, `rowGap` is `var(--xs)` and `direction` is `column` |
| Reconciler.ScenarioPaddingRemoved | src/index.ts:94-104 | `p="sm"` writes `padding: var(--sm)`, and reconciling after the attribute is removed clears it |
| Decimal.Digits | src/index.ts:113 | the decimal digits of a whole number: non-empty, all digits, no leading zero |
| Decimal.DigitsRoundTrip | src/index.ts:113 | reading back the decimal digits of a whole number gives the number |
| Decimal.IntToString | src/index.ts:113 | an integer's spelling is non-empty and starts with `-` exactly when the integer is negative |
| Decimal.IntToStringInjective | src/index.ts:113 | different integers are spelled differently |
| ContainerDivs.TransitionMsFor | src/index.ts:31-35 | the stored duration is never 0: the argument when it is present and non-zero, 300 otherwise |
| ContainerDivs.TransitionValue | src/index.ts:113 | the transition declaration is `all `, then the duration's decimal spelling, then `ms` |
| ContainerDivs.TransitionValueInjective | src/index.ts:113 | different durations give different transition declarations |
| ContainerDivs.ConnectedStyle | src/index.ts:111-115 | after connecting, `display` is `flex`, `transition` is `all <ms>ms`, the style agrees with the attributes, and every other property is as it was |
| ContainerDivs.ContainerDiv.constructor | src/index.ts:31-36 | the element keeps the duration its argument selects and starts with no attributes and an empty style |
| ContainerDivs.ContainerDiv.ApplySizeAttribute | src/index.ts:94-105 | one step of the outer loop, run in place, changes the style exactly as `WriteAll` describes: each controlled property written with the step's value, or cleared |
| ContainerDivs.ContainerDiv.ApplySizeAttributes | src/index.ts:93-106 | the outer loop, run in place, changes the style exactly as `Run` describes, attribute by attribute in processing order |
| ContainerDivs.ContainerDiv.UpdateAttributes | src/index.ts:92-109 | the new style is `Reconcile` of the old style and the attributes, and it agrees with the attributes |
| ContainerDivs.ContainerDiv.ConnectedCallback | src/index.ts:111-115 | the new style is the old one with `display` and `transition` written, then reconciled, and it agrees with the attributes |
| ContainerDivs.ContainerDiv.AttributeChangedCallback | src/index.ts:117-119 | the whole style is reconciled again, whatever attribute changed, and it agrees with the attributes |

## Left out

- The re-export of `define` from a foreign package (src/index.ts:1). Its code is not part of this model.
- The type declarations (src/index.ts:3-28), including the `IContainerDiv` prop type. They have no runtime behaviour.
- The host's `HTMLElement` machinery: `super()`, element registration, when the browser calls the callbacks, and `getAttribute` itself.
  - The attributes are a field the host sets, and `getAttribute` is a map lookup.
  - The callbacks are methods a caller invokes.
- Real CSSOM semantics:
  - Assigning `undefined` to a style property is modelled as removing it, and every assigned string is stored as given. A browser's validation of assigned values is not modelled. In a browser, the style property setter turns `undefined` into the string `"undefined"`, which does not parse as a padding, margin or gap value, so the assignment is ignored and the property keeps its old value. Likewise, `"row"` and `"column"` are not values of the `direction` property. The results about clearing (`AxisAttributesNeverDecide`, `ScenarioPxRowgap`, `ScenarioPaddingRemoved`) hold in this model, not in a browser.
  - `padding` and `paddingLeft` are independent keys here. The shorthand/longhand interplay is not modelled.
  - Dashed spellings (`padding-left`, `row-gap`, `column-gap`, …) and vendor aliases (`-webkit-transition`) of the written properties are separate `Other` keys here, although a browser resolves them to the same property. `ReconcileFrame` treats such a key as untouched.
  - `var()` resolution and theme overrides are not modelled.
- The tables `sizeAttributes` and `observedAttributes` (src/index.ts:38, 57) are public static arrays, and `defaults` (src/index.ts:82) is a public writable field; code outside the class could replace them. The model treats all three as constants.
- TransitionMsFor: the duration is a mathematical integer. A `NaN` argument, which the constructor also treats as falsy, and fractional durations are not modelled.
- TransitionValue: a JavaScript number of magnitude 10^21 or more is spelled in exponent notation, and the decimal spelling here does not model that.
