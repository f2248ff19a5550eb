# `<web-button>`: a verified model of its reactive update logic

This project models the `<web-button>` custom element of
`src/webcomponents/button/button.js`. It covers the property schema
(`propSpecs`), the two allow-list validators, the observed-attribute list,
and the handlers that keep the inner `<button>` in step with the host's
attributes: `update(name, oldValue, newValue)`, `updateLabel`,
`updateA11yText`, `createA11yText` and the `slotchange` listener.

The browser is reduced to plain state:

- the host's attributes are a `map<string, string>`, where an absent name is `null`;
- the inner button has an `id`, a `disabled` flag, a class list (a set of tokens) and a sequence of children;
- the accessibility span has a `className` and a `textContent`;
- whether slotted content is present, and the slot's assigned-node count, are parameters.

Files and modules:

- `dom.dfy`, module `Dom`: the JavaScript and DOM semantics the element relies on.
  - `getAttribute` returns `null` for an absent attribute.
  - String conversion turns `null` into `"null"`: this happens in template literals and when assigning to the DOMString `id`.
  - Truthiness of `string | null`.
  - DOMTokenList `add`/`remove`, including their exceptions. A token containing ASCII whitespace raises InvalidCharacterError. An empty token raises SyntaxError.
  - The `textContent` getter, and its setter ("string replace all" in the DOM Living Standard, Interface Node): the setter removes every child.
- `button_schema.dfy`, module `ButtonSchema`: `propSpecs` as data, the validators and `observedAttributes`.
- `web_button_spec.dfy`, module `WebButtonSpec`: a `View` of one element, and one pure function per handler saying what that handler does to the view.
- `web_button.dfy`, module `WebButtonElement`: the element as objects.
  - Classes `WebButton`, `ButtonElement` and `SpanElement`.
  - Each handler is a method that changes these objects step by step, as the JavaScript does.
  - Each method is proved to leave its objects exactly as the matching `WebButtonSpec` function says.
  - The span's identity is kept: an existing span is never replaced, and a new one is `fresh`.
- `web_button_properties.dfy`, module `WebButtonProperties`: what the handlers guarantee.
  - The class diff for `size`/`type` versus the union for every other attribute, and its idempotence.
  - Label precedence over slotted content.
  - Create-once-then-update for the span.
  - Over any sequence of events: the span is never reset, a detached span is never re-attached, and there is never more than one span.
- `web_button_scenarios.dfy`, module `WebButtonScenarios`: concrete runs, below.

## What the code does, against its own schema

`propSpecs` (button.js:4-33) declares the defaults `'Button'` for `label`,
`'medium'` for `size` and `'default'` for `type` (lines 17, 21, 28),
`required: true` on `id` (line 13) and validators on `size` and `type`
(lines 22-24, 29-31). `update` reads the raw attributes and consults none
of these. The model follows the code. The concrete runs in
`WebButtonScenarios` show each consequence:

- The defaults are never applied and the required `id` may be absent (`SchemaDefaultsUnused`).
- The validators are never consulted. A `type` that its validator rejects, such as `giant`, yields the class `btn--giant`, not the default `btn--default` (`InvalidTypeIsKept`).
- An absent `size` or `type` yields the class `btn--null`, not `btn--medium` or `btn--default` (`AbsentModifiersGiveNullClass`).
- An absent `id` gives the inner button the id `"null"`. Assigning `null` to a DOMString property converts it to `"null"`.
- An absent label gives the empty text, never the schema default `Button`.
- When only `size` and `type` are set, both changes take the diff branch, and `btn` is never added (`SizeAndTypeAloneLackBaseClass`). So the class list is not always `{btn, btn--<size>, btn--<type>}`.
- The `slotchange` listener only clears the text. A later slot change with no nodes does not restore the label; only the next attribute change does (`LabelReturnsOnlyOnNextRender`).
- Writing `textContent` removes the accessibility span from the button. `a11yText` still refers to the span and keeps receiving text, but the span is never attached again.
  - This happens on any later change without slotted content (`RelabelDetachesSpan`, `DetachedSpanStaysDetached`).
  - It happens even when `accessibilityText` itself changes, when that change reaches `update` (`A11yTextChangeUpdatesDetachedSpan`). Under HTML's lower-casing of attribute names it never does; see the line on case folding under "## Left out".
  - So a full render pass is not idempotent. A repeated call detaches a span the first call created (`RepeatedUpdateDetachesNewSpan`). In every other case `update` is idempotent, including a first call that throws in the class step (`UpdateIdempotentUnlessSpanCreated`).
- A `size` or `type` value containing whitespace makes `classList.add`/`remove` throw. `id` and `disabled` are already set by then; the label and the span are not updated (`WhitespaceSizeStopsRender`).

## Model

| member | source | states |
|---|---|---|
| `Dom.GetAttribute` | src/webcomponents/button/button.js:84-91 | an attribute read yields its value when present and `null` (None) exactly when absent |
| `Dom.OrEmpty` | src/webcomponents/button/button.js:86 | the `''` fallback of the label read is the value when it is a non-empty string and `''` otherwise, so a present value is returned unchanged |
| `Dom.TokenError` | src/webcomponents/button/button.js:95-99 | the class-list validation passes exactly when every token is non-empty and free of ASCII whitespace; SyntaxError only for an empty token, InvalidCharacterError only for one with whitespace |
| `Dom.TokenListAdd` | src/webcomponents/button/button.js:96-99 | `classList.add` throws exactly when some token is invalid; otherwise the new set is the old set together with the tokens |
| `Dom.TokenListRemove` | src/webcomponents/button/button.js:95 | `classList.remove` throws exactly when some token is invalid; otherwise the new set is the old set without the tokens |
| `Dom.ReplaceAll` | src/webcomponents/button/button.js:104 | after a `textContent` write the element's text is exactly the written string and the span is no longer among its children |
| `Dom.TextOfAppendSpan` | src/webcomponents/button/button.js:121 | appending the span after the existing children adds the span's text at the end of the element's text |
| `ButtonSchema.IndexOf` | src/webcomponents/button/button.js:30 | `indexOf` gives -1 exactly when the value is absent, and otherwise the first position holding it |
| `ButtonSchema.ValidSize` | src/webcomponents/button/button.js:22-24 | the `size` validator accepts exactly small, medium and large |
| `ButtonSchema.ValidType` | src/webcomponents/button/button.js:29-31 | the `type` validator accepts exactly default, primary, danger, neutral and link |
| `ButtonSchema.Keys` | src/webcomponents/button/button.js:37 | `Object.keys` lists the entry names, one per entry, in declaration order |
| `ButtonSchema.ObservedAttributes` | src/webcomponents/button/button.js:36-38 | the observed attributes are exactly accessibilityText, disabled, faIcon, id, label, size, type, all distinct |
| `ButtonSchema.SchemaShape` | src/webcomponents/button/button.js:4-33 | over the entries of `ButtonSchema.PropSpecs`: only `size` and `type` carry validators, only `id` is required, and each declared default passes its validator as run by `ButtonSchema.Validate` |
| `WebButtonSpec.Initial` | src/webcomponents/button/button.js:40-49 | a new element has a button with no classes and no children, and no accessibility span |
| `WebButtonSpec.ModifierClass` | src/webcomponents/button/button.js:95-99 | the modifier class starts with `btn--`, is `btn--null` for an absent value (the `null` to "null" conversion of `Dom.JsString`), and is a valid token exactly when the value has no whitespace |
| `WebButtonSpec.Disabled` | src/webcomponents/button/button.js:85 | the button is disabled exactly when the attribute is present (`Dom.HasAttribute`) and is not the string "false" |
| `WebButtonSpec.Label` | src/webcomponents/button/button.js:86 | the label text is the attribute's value, or "" when it is absent (never the default `Button`) |
| `WebButtonSpec.ClassStep` | src/webcomponents/button/button.js:94-100 | for `size`/`type`, exactly `btn--<old>` leaves and `btn--<new>` joins; for any other name, the set becomes its union with `btn`, `btn--<size>`, `btn--<type>` from the raw attributes; it throws exactly when one of those tokens has whitespace, and then the set keeps exactly what took effect before the throw |
| `WebButtonSpec.DiffStep` | src/webcomponents/button/button.js:95-96 | without a throw, exactly `btn--<old>` leaves and `btn--<new>` joins; a bad old token throws before anything changes, a bad new token throws after the removal took effect; the exception is InvalidCharacterError |
| `WebButtonSpec.UnionStep` | src/webcomponents/button/button.js:99 | one `add` call: all three tokens join, or on a throw (exactly when the size or type token has whitespace) none does |
| `WebButtonSpec.UpdateLabel` | src/webcomponents/button/button.js:74-81 | without slotted content the button's text becomes the label and the span is detached; with slotted content nothing changes; nothing but the children ever changes |
| `WebButtonSpec.CreateA11yText` | src/webcomponents/button/button.js:117-122 | creates one `sr-only` span with the given text and appends it, adding exactly one span child |
| `WebButtonSpec.UpdateA11yText` | src/webcomponents/button/button.js:61-72 | a non-empty (`Dom.Truthy`) accessibilityText updates the existing span's text and nothing else, or creates a span once; an absent or empty one changes nothing; the span is never removed |
| `WebButtonSpec.Update` | src/webcomponents/button/button.js:83-115 | id becomes the raw `id` attribute, or "null" by `Dom.JsString`, and disabled follows the coercion, whichever attribute changed; the class list and the thrown exception are the CSS step's; when that step throws, the children and the span are untouched |
| `WebButtonSpec.SlotChange` | src/webcomponents/button/button.js:52-57 | with assigned nodes the button's text becomes "" and it has no children; with none nothing changes |
| `WebButtonProperties.UnionStepIdempotent` | src/webcomponents/button/button.js:98-100 | repeating the union step, for any non-modifier attribute, with the same attributes leaves the class set unchanged |
| `WebButtonProperties.ClassStepIdempotent` | src/webcomponents/button/button.js:94-100 | repeating the CSS step with the same arguments gives the same class set and the same exception |
| `WebButtonProperties.ModifierChangeTouchesOnlyItsClasses` | src/webcomponents/button/button.js:94-97 | a `size`/`type` change leaves every class other than `btn--<old>` and `btn--<new>` as it was |
| `WebButtonProperties.UpdateLabelPrecedence` | src/webcomponents/button/button.js:102-105 | after an update that did not throw, the children are the label text without slotted content and untouched with it, then the span if this update created it; the visible text is the label (then the new span's text) |
| `WebButtonProperties.UpdateA11yLifecycle` | src/webcomponents/button/button.js:107-114 | an existing span survives every update with its class; an absent or empty accessibilityText leaves the span as it was; otherwise the span holds that text, and a new one has class `sr-only`; at most one span is attached |
| `WebButtonProperties.UpdatePreservesWellFormed` | src/webcomponents/button/button.js:83-122 | an update keeps the button holding at most one span, and only the span `a11yText` refers to |
| `WebButtonProperties.StepPreservesWellFormed` | src/webcomponents/button/button.js:52-57 | each attribute change or slot change keeps that invariant |
| `WebButtonProperties.RunPreservesWellFormed` | src/webcomponents/button/button.js:52-122 | every state reachable by any sequence of events keeps that invariant |
| `WebButtonProperties.SpanNeverReset` | src/webcomponents/button/button.js:65-70 | once created, the span is never reset to absent and keeps its class over any sequence of events |
| `WebButtonProperties.DetachedSpanStaysDetached` | src/webcomponents/button/button.js:104-121 | a span removed from the button by a `textContent` write is never attached again, whatever follows |
| `WebButtonProperties.UpdateIdempotentUnlessSpanCreated` | src/webcomponents/button/button.js:83-115 | a second identical update changes nothing, unless the first one completed and created the span without slotted content; a first update that throws is always repeated without effect |
| `WebButtonProperties.RepeatedUpdateDetachesNewSpan` | src/webcomponents/button/button.js:104-121 | in that excluded case the second update detaches the span that the first one appended |
| `WebButtonScenarios.SchemaDefaultsUnused` | src/webcomponents/button/button.js:13-28 | the schema marks `id` required and declares the defaults `Button`, `medium` and `default`, yet an update with no attributes set gives the empty text, the id "null" and the classes `btn` and `btn--null` |
| `WebButtonScenarios.AbsentModifiersGiveNullClass` | src/webcomponents/button/button.js:91-99 | with only `label` set, the classes are `btn` and `btn--null`, the id is "null" and the text is the label |
| `WebButtonScenarios.SizeAndTypeAloneLackBaseClass` | src/webcomponents/button/button.js:94-97 | setting only `size` then `type` leaves the classes `btn--small` and `btn--primary`, without `btn` |
| `WebButtonScenarios.InvalidTypeIsKept` | src/webcomponents/button/button.js:29-31 | a `type` the validator rejects still becomes the class `btn--giant` |
| `WebButtonScenarios.RelabelDetachesSpan` | src/webcomponents/button/button.js:104-121 | after accessibilityText then label, `a11yText` holds its text but the button's only child is the label text |
| `WebButtonScenarios.A11yTextChangeUpdatesDetachedSpan` | src/webcomponents/button/button.js:102-113 | a second accessibilityText updates the one span's text, but that span is detached and the button's text is empty |
| `WebButtonScenarios.WhitespaceSizeStopsRender` | src/webcomponents/button/button.js:99 | a `size` with a space makes the update throw InvalidCharacterError with no class, no text and id "null" |
| `WebButtonScenarios.LabelReturnsOnlyOnNextRender` | src/webcomponents/button/button.js:52-57 | slotted content blanks the text; an empty slot change keeps it blank; the next attribute change without slotted content shows the label again |
| `WebButtonElement.SpanElement.constructor` | src/webcomponents/button/button.js:118 | a new span has an empty class name and no text |
| `WebButtonElement.ButtonElement.constructor` | src/webcomponents/button/button.js:46 | a new button has no id, is enabled, and has no classes and no children |
| `WebButtonElement.WebButton.constructor` | src/webcomponents/button/button.js:40-49 | the element starts in the initial view, with a fresh inner button and no span |
| `WebButtonElement.WebButton.Update` | src/webcomponents/button/button.js:83-115 | the new state and the thrown exception are exactly `WebButtonSpec.Update` of the old state; the invariant is kept; an existing span object is kept, and a new one is fresh |
| `WebButtonElement.WebButton.UpdateClasses` | src/webcomponents/button/button.js:94-100 | the class list and the exception are exactly the CSS step's |
| `WebButtonElement.WebButton.SetIdAndDisabled` | src/webcomponents/button/button.js:85-92 | the button's id is the `id` attribute converted to a string ("null" when absent) and `disabled` is set exactly when the attribute is present and not "false" |
| `WebButtonElement.WebButton.Render` | src/webcomponents/button/button.js:102-114 | the new state is the label step followed by the accessibility step of the old state; an existing span object is kept, and a new one is fresh |
| `WebButtonElement.WebButton.UpdateA11yText` | src/webcomponents/button/button.js:61-72 | the new state is exactly `WebButtonSpec.UpdateA11yText` of the old; an existing span object is kept, and a new one is fresh |
| `WebButtonElement.WebButton.UpdateLabel` | src/webcomponents/button/button.js:74-81 | the new state is exactly `WebButtonSpec.UpdateLabel` of the old |
| `WebButtonElement.WebButton.CreateA11yText` | src/webcomponents/button/button.js:117-122 | a fresh span with class `sr-only` and the text is stored in `a11yText` and appended to the button |
| `WebButtonElement.WebButton.SlotChange` | src/webcomponents/button/button.js:52-57 | the new state is exactly `WebButtonSpec.SlotChange` of the old |

`WebButton.SetAttribute` and `WebButtonSpec.SetAttribute` stand for the host
page writing an attribute. `WebButtonSpec.Step` and `Run` stand for the base
runtime calling `update` once per attribute mutation, with the previous and
the new value. Neither is part of `button.js`.

## Left out

- The `WebComponent` base class is not part of this model. The model does not include:
  - the shadow root;
  - `linkStylesheet` (line 44);
  - the slot element and its insertion into the shadow root (lines 47-49);
  - `hasSlottedContent()`, which is a parameter here;
  - the wiring from `attributeChangedCallback` to `update`.
- Custom-element registration (line 125) is global registry I/O. The `console.log` call (line 58) is output.
- Attribute names are compared exactly. The HTML parser and `setAttribute` lower-case attribute names; that folding, and its effect on the camel-case observed names `accessibilityText` and `faIcon`, is not modelled.
- The `default`, `required` and `type` entries of `propSpecs` are kept as data only, because no code in the file acts on them. `faIcon` is observed but never read.
- The class list is a set. The token order of DOMTokenList, visible only through `className`, is not modelled.
- Only `textContent` is modelled for the span. Rendering, event dispatch and the `disabled` and `id` content attributes reflected by the inner button are not modelled.
- A span's identity is visible in `WebButtonElement`, where the object is kept or is fresh. It is not visible in the `View` values of `WebButtonSpec`.
- WebButtonElement.WebButton.CreateA11yText: requires that no span exists yet. Both callers (lines 65-69 and 108-112) only call it then. A second call, which the code never makes, would leave an orphan span attached; that case is not modelled.
- WebButtonSpec.CreateA11yText: the same precondition, for the same reason.
