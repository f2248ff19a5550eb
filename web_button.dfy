/** The `<web-button>` custom element as objects: the host element with its
    attributes, the inner `<button>` it creates, and the accessibility
    `<span>` it creates lazily. Each handler is a method that changes these
    objects step by step, as the element does, and is proved to leave them
    in the state the matching function of WebButtonSpec describes. The
    shadow root, the slot and `hasSlottedContent()` belong to the base
    runtime: the slot's assigned-node count and the slotted-content answer
    are parameters. */
module WebButtonElement {

  import opened Dom
  import opened WebButtonSpec

  /** A `<span>` element, as `document.createElement('span')` returns it. */
  class SpanElement {
    var className: string
    var textContent: string

    constructor ()
      ensures className == "" && textContent == ""
    {
      className := "";
      textContent := "";
    }
  }

  /** The inner `<button>` element, as `document.createElement('button')`
      returns it. */
  class ButtonElement {
    var id: string
    var disabled: bool
    var classList: set<string>
    var children: seq<ChildNode>

    constructor ()
      ensures id == "" && !disabled && classList == {} && children == []
    {
      id := "";
      disabled := false;
      classList := {};
      children := [];
    }

    function State(): ButtonState
      reads this
    {
      ButtonState(id, disabled, classList, children)
    }
  }

  class WebButton {
    /** The host element's attributes. */
    var attrs: AttrMap
    /** `this.button`, created once by the constructor. */
    const button: ButtonElement
    /** `this.a11yText`: null until the first non-empty `accessibilityText`. */
    var a11yText: SpanElement?

    function State(): View
      reads this, button, a11yText
    {
      View(attrs, button.State(),
           if a11yText == null then None else Some(SpanState(a11yText.className, a11yText.textContent)))
    }

    ghost predicate Valid()
      reads this, button, a11yText
    {
      WellFormed(State())
    }

    /** The constructor: creates the inner button (the slot and the shadow
        root are the base runtime's). */
    constructor (initialAttrs: AttrMap)
      ensures Valid() && fresh(button) && a11yText == null
      ensures State() == Initial(initialAttrs)
    {
      attrs := initialAttrs;
      button := new ButtonElement();
      a11yText := null;
    }

    /** The host page setting (Some) or removing (None) an attribute; the base
        runtime then calls `Update` with the value returned here. */
    method SetAttribute(name: string, value: Option<string>) returns (oldValue: Option<string>)
      requires Valid()
      modifies this`attrs
      ensures Valid()
      ensures oldValue == GetAttribute(old(attrs), name)
      ensures State() == WebButtonSpec.SetAttribute(old(State()), name, value)
    {
      oldValue := GetAttribute(attrs, name);
      match value {
        case Some(s) => attrs := attrs[name := s];
        case None => attrs := attrs - {name};
      }
    }

    /** `update(name, oldValue, newValue)`. An exception thrown by the class
        list is returned in `thrown`; the statements after it do not run. The
        label and accessibility lines of `update` are the statements of
        `updateLabel` and `updateA11yText`, so they run through those methods
        (the attributes cannot change during the call). */
    method Update(name: string, oldValue: Option<string>, newValue: Option<string>,
                  hasSlottedContent: bool) returns (thrown: Option<DomException>)
      requires Valid()
      modifies this, button, a11yText
      ensures Valid()
      ensures UpdateResult(State(), thrown) ==
              WebButtonSpec.Update(old(State()), name, oldValue, newValue, hasSlottedContent)
      ensures old(a11yText) != null ==> a11yText == old(a11yText)
      ensures old(a11yText) == null && a11yText != null ==> fresh(a11yText)
    {
      SetIdAndDisabled();
      thrown := UpdateClasses(name, oldValue, newValue);
      if thrown.Some? {
        return;
      }
      Render(hasSlottedContent);
    }

    /** The first two lines of `update`: `id` from the attribute (so "null"
        when it is absent) and `disabled` from the attribute's presence and
        value. */
    method SetIdAndDisabled()
      modifies button`id, button`disabled
      ensures button.id == JsString(GetAttribute(attrs, "id"))
      ensures button.disabled == Disabled(attrs)
    {
      var disabled := HasAttribute(attrs, "disabled") && GetAttribute(attrs, "disabled") != Some("false");
      button.id := JsString(GetAttribute(attrs, "id"));
      button.disabled := disabled;
    }

    /** The lines of `update` after the class list: the label, then the span. */
    method Render(hasSlottedContent: bool)
      requires Valid()
      modifies this, button, a11yText
      ensures Valid()
      ensures State() == WebButtonSpec.UpdateA11yText(WebButtonSpec.UpdateLabel(old(State()), hasSlottedContent))
      ensures old(a11yText) != null ==> a11yText == old(a11yText)
      ensures old(a11yText) == null && a11yText != null ==> fresh(a11yText)
    {
      UpdateLabel(hasSlottedContent);
      UpdateA11yText();
    }

    /** The class-list lines of `update`: the diff for `size` and `type`, the
        union for any other attribute; a thrown exception stops them. */
    method UpdateClasses(name: string, oldValue: Option<string>, newValue: Option<string>)
      returns (thrown: Option<DomException>)
      modifies button`classList
      ensures ClassStepResult(button.classList, thrown) ==
              ClassStep(old(button.classList), attrs, name, oldValue, newValue)
    {
      if name == "size" || name == "type" {
        var removed := TokenListRemove(button.classList, [ModifierClass(oldValue)]);
        if removed.Err? {
          return Some(removed.error);
        }
        button.classList := removed.value;
        var added := TokenListAdd(button.classList, [ModifierClass(newValue)]);
        if added.Err? {
          return Some(added.error);
        }
        button.classList := added.value;
      } else {
        var size := GetAttribute(attrs, "size");
        var kind := GetAttribute(attrs, "type");
        var added := TokenListAdd(button.classList, ["btn", ModifierClass(size), ModifierClass(kind)]);
        if added.Err? {
          return Some(added.error);
        }
        button.classList := added.value;
      }
      thrown := None;
    }

    /** `updateA11yText()`. */
    method UpdateA11yText()
      requires Valid()
      modifies this, button, a11yText
      ensures Valid()
      ensures State() == WebButtonSpec.UpdateA11yText(old(State()))
      ensures old(a11yText) != null ==> a11yText == old(a11yText)
      ensures old(a11yText) == null && a11yText != null ==> fresh(a11yText)
    {
      var accessibilityText := GetAttribute(attrs, "accessibilityText");
      if Truthy(accessibilityText) {
        if a11yText != null {
          a11yText.textContent := accessibilityText.value;
        } else {
          CreateA11yText(accessibilityText.value);
        }
      }
    }

    /** `updateLabel()`. */
    method UpdateLabel(hasSlottedContent: bool)
      requires Valid()
      modifies button
      ensures Valid()
      ensures State() == WebButtonSpec.UpdateLabel(old(State()), hasSlottedContent)
    {
      var labelText := OrEmpty(GetAttribute(attrs, "label"));
      if !hasSlottedContent {
        button.children := ReplaceAll(labelText);
      }
    }

    /** `createA11yText(text)`; both callers call it only while `a11yText` is
        null. */
    method CreateA11yText(text: string)
      requires Valid() && a11yText == null
      modifies this, button
      ensures Valid()
      ensures fresh(a11yText)
      ensures State() == WebButtonSpec.CreateA11yText(old(State()), text)
    {
      a11yText := new SpanElement();
      a11yText.className := SrOnly;
      a11yText.textContent := text;
      assert multiset(button.children)[A11ySpanNode] == 0;
      button.children := button.children + [A11ySpanNode];
    }

    /** The `slotchange` listener, given `slot.assignedNodes().length`. */
    method SlotChange(assignedNodes: nat)
      requires Valid()
      modifies button
      ensures Valid()
      ensures State() == WebButtonSpec.SlotChange(old(State()), assignedNodes)
    {
      if assignedNodes > 0 {
        button.children := ReplaceAll("");
      }
    }
  }
}
