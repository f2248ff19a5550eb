/** The observable state of one `<web-button>` and the pure transition
    functions that say what each handler of the element does to it. The
    methods of class WebButtonElement.WebButton are proved to move their
    objects exactly as these functions say. */
module WebButtonSpec {

  import opened Dom

  /** The inner `<button>`: its `id` and `disabled` properties, its class
      list (a set of tokens) and its children. */
  datatype ButtonState = ButtonState(
    id: string,
    disabled: bool,
    classList: set<string>,
    children: seq<ChildNode>)

  /** The accessibility `<span>` element. */
  datatype SpanState = SpanState(className: string, textContent: string)

  /** The host's attributes, the inner button, and the span `this.a11yText`
      refers to (None until it is first created). A `A11ySpanNode` among
      the button's children means that this span is attached there. */
  datatype View = View(attrs: AttrMap, button: ButtonState, a11yText: Option<SpanState>)

  /** What an `update` call leaves behind, and the exception it threw, if any. */
  datatype UpdateResult = UpdateResult(view: View, thrown: Option<DomException>)

  /** The class list after the CSS step, and the exception it threw, if any. */
  datatype ClassStepResult = ClassStepResult(classes: set<string>, thrown: Option<DomException>)

  /** The class the accessibility span carries. */
  const SrOnly: string := "sr-only"

  /** The state right after the constructor: a fresh `<button>` with no id, not
      disabled, no classes and no children; no accessibility span yet. */
  function Initial(attrs: AttrMap): (v: View)
    ensures v.attrs == attrs && v.a11yText.None?
    ensures v.button.classList == {} && v.button.children == []
  {
    View(attrs, ButtonState("", false, {}, []), None)
  }

  /** The span is only ever attached once, and only the span the element
      refers to can be among the button's children. */
  ghost predicate WellFormed(v: View)
  {
    (A11ySpanNode in v.button.children ==> v.a11yText.Some?) &&
    multiset(v.button.children)[A11ySpanNode] <= 1
  }

  /** The button's `textContent`. */
  function ButtonText(v: View): string
  {
    TextOf(v.button.children, if v.a11yText.Some? then v.a11yText.value.textContent else "")
  }

  /** The modifier class `btn--${value}` built by a template literal, so that
      an absent attribute (`null`) gives `btn--null`. */
  function ModifierClass(value: Option<string>): (c: string)
    ensures value.None? ==> c == "btn--null"
    ensures |c| >= 5 && c[..5] == "btn--"
    ensures ValidToken(c) <==> !HasAsciiWhitespace(JsString(value))
  {
    var c := "btn--" + JsString(value);
    assert forall i | 0 <= i < |JsString(value)| :: c[5 + i] == JsString(value)[i];
    assert !HasAsciiWhitespace("btn--");
    c
  }

  /** The `disabled` coercion: the attribute is present and is not the string
      "false" (so "" and "true" both disable). */
  function Disabled(attrs: AttrMap): (d: bool)
    ensures d <==> "disabled" in attrs && attrs["disabled"] != "false"
  {
    HasAttribute(attrs, "disabled") && GetAttribute(attrs, "disabled") != Some("false")
  }

  /** The label text `getAttribute('label') || ''`: the attribute's value, and
      "" when it is absent; the schema default "Button" is never used. */
  function Label(attrs: AttrMap): (s: string)
    ensures s == if "label" in attrs then attrs["label"] else ""
  {
    OrEmpty(GetAttribute(attrs, "label"))
  }

  /** True when the changed attribute selects the class diff. */
  predicate IsModifierAxis(name: string)
  {
    name == "size" || name == "type"
  }

  /** `classList.remove(oldClass)` then `classList.add(newClass)`: the second
      call runs only when the first did not throw. */
  function DiffStep(classes: set<string>, oldClass: string, newClass: string): (r: ClassStepResult)
    requires oldClass != "" && newClass != ""
    ensures r.thrown.Some? ==> r.thrown == Some(InvalidCharacterError)
    ensures r.thrown.None? <==> ValidToken(oldClass) && ValidToken(newClass)
    ensures r.thrown.None? ==> r.classes == classes - {oldClass} + {newClass}
    ensures r.thrown.Some? && !ValidToken(oldClass) ==> r.classes == classes
    ensures r.thrown.Some? && ValidToken(oldClass) ==> r.classes == classes - {oldClass}
  {
    match TokenListRemove(classes, [oldClass])
    case Err(e) => ClassStepResult(classes, Some(e))
    case Ok(removed) =>
      match TokenListAdd(removed, [newClass])
      case Err(e) => ClassStepResult(removed, Some(e))
      case Ok(added) => ClassStepResult(added, None)
  }

  /** `classList.add('btn', sizeClass, typeClass)`: one call, so either all
      three tokens join or, on a throw, none does. */
  function UnionStep(classes: set<string>, sizeClass: string, typeClass: string): (r: ClassStepResult)
    requires sizeClass != "" && typeClass != ""
    ensures r.thrown.Some? ==> r.thrown == Some(InvalidCharacterError) && r.classes == classes
    ensures r.thrown.None? <==> ValidToken(sizeClass) && ValidToken(typeClass)
    ensures r.thrown.None? ==> r.classes == classes + {"btn", sizeClass, typeClass}
  {
    var tokens := ["btn", sizeClass, typeClass];
    assert ValidToken("btn");
    assert forall i | 0 <= i < |tokens| :: tokens[i] != "";
    assert (forall i | 0 <= i < |tokens| :: ValidToken(tokens[i])) <==>
           ValidToken(tokens[1]) && ValidToken(tokens[2]);
    var added := TokenListAdd(classes, tokens);
    if added.Err? then
      assert added.error == InvalidCharacterError;
      ClassStepResult(classes, Some(added.error))
    else
      ClassStepResult(added.value, None)
  }

  /** The CSS step of `update`. A change to `size` or `type` removes
      `btn--<oldValue>` and then adds `btn--<newValue>`; any other change adds
      `btn`, `btn--<size>` and `btn--<type>` built from the raw attributes.
      A token with whitespace throws, after any earlier call took effect. */
  function ClassStep(classes: set<string>, attrs: AttrMap, name: string,
                     oldValue: Option<string>, newValue: Option<string>): (r: ClassStepResult)
    ensures r.thrown.Some? ==> r.thrown == Some(InvalidCharacterError)
    ensures IsModifierAxis(name) ==>
      (r.thrown.None? <==> ValidToken(ModifierClass(oldValue)) && ValidToken(ModifierClass(newValue))) &&
      (r.thrown.None? ==> r.classes == classes - {ModifierClass(oldValue)} + {ModifierClass(newValue)}) &&
      (r.thrown.Some? && !ValidToken(ModifierClass(oldValue)) ==> r.classes == classes) &&
      (r.thrown.Some? && ValidToken(ModifierClass(oldValue)) ==> r.classes == classes - {ModifierClass(oldValue)})
    ensures !IsModifierAxis(name) ==>
      (r.thrown.None? <==>
        ValidToken(ModifierClass(GetAttribute(attrs, "size"))) &&
        ValidToken(ModifierClass(GetAttribute(attrs, "type")))) &&
      (r.thrown.None? ==> r.classes == classes + {"btn",
                                                  ModifierClass(GetAttribute(attrs, "size")),
                                                  ModifierClass(GetAttribute(attrs, "type"))}) &&
      (r.thrown.Some? ==> r.classes == classes)
  {
    if IsModifierAxis(name) then
      DiffStep(classes, ModifierClass(oldValue), ModifierClass(newValue))
    else
      UnionStep(classes, ModifierClass(GetAttribute(attrs, "size")), ModifierClass(GetAttribute(attrs, "type")))
  }

  /** The label step (`updateLabel`, and the same lines inside `update`):
      without slotted content the button's whole content is replaced by the
      label text, which detaches the span; with slotted content nothing
      happens. */
  function UpdateLabel(v: View, hasSlottedContent: bool): (r: View)
    ensures r.attrs == v.attrs && r.a11yText == v.a11yText
    ensures r.button.(children := v.button.children) == v.button
    ensures hasSlottedContent ==> r == v
    ensures !hasSlottedContent ==> ButtonText(r) == Label(v.attrs) && A11ySpanNode !in r.button.children
  {
    if !hasSlottedContent then
      v.(button := v.button.(children := ReplaceAll(Label(v.attrs))))
    else
      v
  }

  /** `createA11yText(text)`: a new span with class `sr-only` and the given
      text, appended as the button's last child. Both callers call it only
      while no span exists. */
  function CreateA11yText(v: View, text: string): (r: View)
    requires v.a11yText.None?
    ensures r.attrs == v.attrs
    ensures r.a11yText == Some(SpanState(SrOnly, text))
    ensures r.button.(children := v.button.children) == v.button
    ensures r.button.children == v.button.children + [A11ySpanNode]
    ensures multiset(r.button.children)[A11ySpanNode] == multiset(v.button.children)[A11ySpanNode] + 1
  {
    v.(a11yText := Some(SpanState(SrOnly, text)),
       button := v.button.(children := v.button.children + [A11ySpanNode]))
  }

  /** The accessibility step (`updateA11yText`, and the same lines inside
      `update`): with a non-empty `accessibilityText` the existing span gets
      that text, or the span is created if there is none; otherwise nothing
      changes. The span is never removed and never duplicated. */
  function UpdateA11yText(v: View): (r: View)
    ensures r.attrs == v.attrs
    ensures r.button.(children := v.button.children) == v.button
    ensures !Truthy(GetAttribute(v.attrs, "accessibilityText")) ==> r == v
    ensures v.a11yText.Some? ==>
      r.button == v.button && r.a11yText.Some? &&
      r.a11yText.value.className == v.a11yText.value.className
    ensures v.a11yText.Some? && Truthy(GetAttribute(v.attrs, "accessibilityText")) ==>
      r.a11yText.value.textContent == v.attrs["accessibilityText"]
    ensures v.a11yText.None? && Truthy(GetAttribute(v.attrs, "accessibilityText")) ==>
      r.a11yText == Some(SpanState(SrOnly, v.attrs["accessibilityText"])) &&
      r.button.children == v.button.children + [A11ySpanNode]
  {
    var accessibilityText := GetAttribute(v.attrs, "accessibilityText");
    if Truthy(accessibilityText) then
      if v.a11yText.Some? then
        v.(a11yText := Some(v.a11yText.value.(textContent := accessibilityText.value)))
      else
        CreateA11yText(v, accessibilityText.value)
    else
      v
  }

  /** `update(name, oldValue, newValue)`: `id` and `disabled` from the current
      attributes, whichever attribute changed; then the CSS step; then, unless
      the CSS step threw, the label step and the accessibility step. The
      validators are not consulted. */
  function Update(v: View, name: string, oldValue: Option<string>, newValue: Option<string>,
                  hasSlottedContent: bool): (r: UpdateResult)
    ensures r.view.attrs == v.attrs
    ensures r.view.button.id == if "id" in v.attrs then v.attrs["id"] else "null"
    ensures r.view.button.disabled <==> "disabled" in v.attrs && v.attrs["disabled"] != "false"
    ensures var cs := ClassStep(v.button.classList, v.attrs, name, oldValue, newValue);
            r.view.button.classList == cs.classes && r.thrown == cs.thrown
    ensures r.thrown.Some? ==> r.view.button.children == v.button.children && r.view.a11yText == v.a11yText
  {
    var attrs := v.attrs;
    var b1 := v.button.(id := JsString(GetAttribute(attrs, "id")), disabled := Disabled(attrs));
    var cs := ClassStep(b1.classList, attrs, name, oldValue, newValue);
    var v2 := v.(button := b1.(classList := cs.classes));
    if cs.thrown.Some? then
      UpdateResult(v2, cs.thrown)
    else
      UpdateResult(UpdateA11yText(UpdateLabel(v2, hasSlottedContent)), None)
  }

  /** The `slotchange` handler: with at least one assigned node the button's
      text is cleared (which also detaches the span); with none, nothing
      changes. It never restores the label. */
  function SlotChange(v: View, assignedNodes: nat): (r: View)
    ensures r.attrs == v.attrs && r.a11yText == v.a11yText
    ensures r.button.(children := v.button.children) == v.button
    ensures assignedNodes > 0 ==> ButtonText(r) == "" && r.button.children == []
    ensures assignedNodes == 0 ==> r == v
  {
    if assignedNodes > 0 then v.(button := v.button.(children := ReplaceAll(""))) else v
  }

  /** The host page setting (Some) or removing (None) an attribute. */
  function SetAttribute(v: View, name: string, value: Option<string>): (r: View)
    ensures GetAttribute(r.attrs, name) == value
    ensures forall n | n != name :: GetAttribute(r.attrs, n) == GetAttribute(v.attrs, n)
    ensures r.button == v.button && r.a11yText == v.a11yText
  {
    match value
    case Some(s) => v.(attrs := v.attrs[name := s])
    case None => v.(attrs := v.attrs - {name})
  }

  /** What reaches the element from outside: an observed attribute being set or
      removed (after which `update` runs with the previous and the new value),
      or a `slotchange` event with the slot's number of assigned nodes. */
  datatype Event =
    | AttributeChanged(name: string, newValue: Option<string>, hasSlottedContent: bool)
    | SlotChanged(assignedNodes: nat)

  function Step(v: View, e: Event): View
  {
    match e
    case AttributeChanged(name, newValue, slotted) =>
      Update(SetAttribute(v, name, newValue), name, GetAttribute(v.attrs, name), newValue, slotted).view
    case SlotChanged(k) => SlotChange(v, k)
  }

  /** The state after a sequence of events, in order. */
  function Run(v: View, events: seq<Event>): View
    decreases |events|
  {
    if events == [] then v else Run(Step(v, events[0]), events[1..])
  }
}
