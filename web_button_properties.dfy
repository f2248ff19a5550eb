/** Properties of the web button's transitions: the CSS diff versus union,
    idempotence, label precedence over slotted content, and the lifecycle of
    the accessibility span over any sequence of events. */
module WebButtonProperties {

  import opened Dom
  import opened ButtonSchema
  import opened WebButtonSpec

  /** The union step can be repeated, for any non-modifier attribute, with the
      same attributes and leaves the class set as it was. */
  lemma UnionStepIdempotent(classes: set<string>, attrs: AttrMap,
                            name1: string, old1: Option<string>, new1: Option<string>,
                            name2: string, old2: Option<string>, new2: Option<string>)
    requires !IsModifierAxis(name1) && !IsModifierAxis(name2)
    ensures var c1 := ClassStep(classes, attrs, name1, old1, new1).classes;
            ClassStep(c1, attrs, name2, old2, new2).classes == c1
  {
  }

  /** Repeating the CSS step with the same arguments changes nothing further
      and throws exactly when the first call threw, on both branches. */
  lemma ClassStepIdempotent(classes: set<string>, attrs: AttrMap, name: string,
                            oldValue: Option<string>, newValue: Option<string>)
    ensures var r1 := ClassStep(classes, attrs, name, oldValue, newValue);
            ClassStep(r1.classes, attrs, name, oldValue, newValue) == r1
  {
  }

  /** Setting `size` or `type` touches only the two modifier classes built from
      the old and the new value; `btn` and the other axis stay as they were. */
  lemma ModifierChangeTouchesOnlyItsClasses(classes: set<string>, attrs: AttrMap, name: string,
                                            oldValue: Option<string>, newValue: Option<string>, c: string)
    requires IsModifierAxis(name)
    requires c != ModifierClass(oldValue) && c != ModifierClass(newValue)
    ensures c in ClassStep(classes, attrs, name, oldValue, newValue).classes <==> c in classes
  {
  }

  /** True when an `update` on `v` creates the accessibility span. */
  predicate CreatesSpan(v: View)
  {
    v.a11yText.None? && Truthy(GetAttribute(v.attrs, "accessibilityText"))
  }

  /** Label precedence. After an `update` that did not throw, the button's
      children are the label text when there is no slotted content and are
      untouched when there is, followed by the span when this call created it;
      without slotted content the visible text is the label (then the new
      span's text). */
  lemma UpdateLabelPrecedence(v: View, name: string, oldValue: Option<string>,
                              newValue: Option<string>, hasSlottedContent: bool)
    ensures var r := Update(v, name, oldValue, newValue, hasSlottedContent);
            var base := if hasSlottedContent then v.button.children else ReplaceAll(Label(v.attrs));
            r.thrown.None? ==>
              r.view.button.children == base + (if CreatesSpan(v) then [A11ySpanNode] else [])
    ensures var r := Update(v, name, oldValue, newValue, hasSlottedContent);
            r.thrown.None? && !hasSlottedContent ==>
              ButtonText(r.view) ==
                Label(v.attrs) + (if CreatesSpan(v) then v.attrs["accessibilityText"] else "")
  {
    var r := Update(v, name, oldValue, newValue, hasSlottedContent);
    if r.thrown.None? && !hasSlottedContent && CreatesSpan(v) {
      var acc := v.attrs["accessibilityText"];
      TextOfAppendSpan(ReplaceAll(Label(v.attrs)), acc);
      assert ButtonText(r.view) == TextOf(ReplaceAll(Label(v.attrs)) + [A11ySpanNode], acc);
    }
  }

  /** Create once, then update. An `update` that did not throw leaves a span
      holding a non-empty `accessibilityText`: the same span (same class, no
      new child) if one existed, else a new `sr-only` span appended once. An
      absent or empty `accessibilityText` leaves the span as it was, and no
      `update` ever removes an existing span. */
  lemma UpdateA11yLifecycle(v: View, name: string, oldValue: Option<string>,
                            newValue: Option<string>, hasSlottedContent: bool)
    ensures var r := Update(v, name, oldValue, newValue, hasSlottedContent);
            v.a11yText.Some? ==>
              r.view.a11yText.Some? && r.view.a11yText.value.className == v.a11yText.value.className
    ensures var r := Update(v, name, oldValue, newValue, hasSlottedContent);
            !Truthy(GetAttribute(v.attrs, "accessibilityText")) ==> r.view.a11yText == v.a11yText
    ensures var r := Update(v, name, oldValue, newValue, hasSlottedContent);
            r.thrown.None? && Truthy(GetAttribute(v.attrs, "accessibilityText")) ==>
              r.view.a11yText.Some? &&
              r.view.a11yText.value.textContent == v.attrs["accessibilityText"] &&
              (v.a11yText.None? ==> r.view.a11yText.value.className == SrOnly)
    ensures var r := Update(v, name, oldValue, newValue, hasSlottedContent);
            WellFormed(v) ==>
              multiset(r.view.button.children)[A11ySpanNode] <= 1 &&
              (A11ySpanNode in r.view.button.children ==> r.view.a11yText.Some?)
  {
    var r := Update(v, name, oldValue, newValue, hasSlottedContent);
    if WellFormed(v) && r.thrown.None? {
      UpdateLabelPrecedence(v, name, oldValue, newValue, hasSlottedContent);
      if CreatesSpan(v) {
        var base := if hasSlottedContent then v.button.children else ReplaceAll(Label(v.attrs));
        assert A11ySpanNode !in base;
        assert multiset(base)[A11ySpanNode] == 0;
        assert multiset(base + [A11ySpanNode]) == multiset(base) + multiset{A11ySpanNode};
      } else if !hasSlottedContent {
        assert A11ySpanNode !in ReplaceAll(Label(v.attrs));
      }
    }
  }

  lemma UpdatePreservesWellFormed(v: View, name: string, oldValue: Option<string>,
                                  newValue: Option<string>, hasSlottedContent: bool)
    requires WellFormed(v)
    ensures WellFormed(Update(v, name, oldValue, newValue, hasSlottedContent).view)
  {
    UpdateA11yLifecycle(v, name, oldValue, newValue, hasSlottedContent);
  }

  lemma StepPreservesWellFormed(v: View, e: Event)
    requires WellFormed(v)
    ensures WellFormed(Step(v, e))
  {
    match e
    case AttributeChanged(name, newValue, slotted) =>
      var v1 := SetAttribute(v, name, newValue);
      UpdatePreservesWellFormed(v1, name, GetAttribute(v.attrs, name), newValue, slotted);
    case SlotChanged(k) =>
  }

  /** Every reachable state is well formed: there is never more than one span
      among the button's children, and only the one `a11yText` refers to. */
  lemma {:induction false} RunPreservesWellFormed(v: View, events: seq<Event>)
    requires WellFormed(v)
    ensures WellFormed(Run(v, events))
    decreases |events|
  {
    if events != [] {
      StepPreservesWellFormed(v, events[0]);
      RunPreservesWellFormed(Step(v, events[0]), events[1..]);
    }
  }

  /** Monotonic lifecycle: once a span exists, no sequence of attribute
      changes and slot changes resets `a11yText` to absent or changes its
      class. */
  lemma {:induction false} SpanNeverReset(v: View, events: seq<Event>)
    requires v.a11yText.Some?
    ensures Run(v, events).a11yText.Some?
    ensures Run(v, events).a11yText.value.className == v.a11yText.value.className
    decreases |events|
  {
    if events != [] {
      var v1 := Step(v, events[0]);
      match events[0] {
        case AttributeChanged(name, newValue, slotted) =>
          UpdateA11yLifecycle(SetAttribute(v, name, newValue), name, GetAttribute(v.attrs, name), newValue, slotted);
        case SlotChanged(k) =>
      }
      SpanNeverReset(v1, events[1..]);
    }
  }

  /** A span that has been detached from the button (by a `textContent`
      write) is never attached again: the element keeps updating its text, but
      it is no longer part of the button. */
  lemma {:induction false} DetachedSpanStaysDetached(v: View, events: seq<Event>)
    requires v.a11yText.Some? && A11ySpanNode !in v.button.children
    ensures A11ySpanNode !in Run(v, events).button.children
    decreases |events|
  {
    if events != [] {
      var v1 := Step(v, events[0]);
      match events[0] {
        case AttributeChanged(name, newValue, slotted) =>
          var u := SetAttribute(v, name, newValue);
          UpdateLabelPrecedence(u, name, GetAttribute(v.attrs, name), newValue, slotted);
          UpdateA11yLifecycle(u, name, GetAttribute(v.attrs, name), newValue, slotted);
          if !slotted {
            assert A11ySpanNode !in ReplaceAll(Label(u.attrs));
          }
        case SlotChanged(k) =>
      }
      SpanNeverReset(v, [events[0]]);
      assert Run(v, [events[0]]) == v1;
      DetachedSpanStaysDetached(v1, events[1..]);
    }
  }

  /** A second `update` with the same arguments and the same slot answer
      changes nothing further, unless the first call created the span while
      there was no slotted content. A first call that throws creates nothing
      and is covered too. */
  lemma UpdateIdempotentUnlessSpanCreated(v: View, name: string, oldValue: Option<string>,
                                          newValue: Option<string>, hasSlottedContent: bool)
    requires !(CreatesSpan(v) && !hasSlottedContent &&
               Update(v, name, oldValue, newValue, hasSlottedContent).thrown.None?)
    ensures var r1 := Update(v, name, oldValue, newValue, hasSlottedContent);
            Update(r1.view, name, oldValue, newValue, hasSlottedContent) == r1
  {
    ClassStepIdempotent(v.button.classList, v.attrs, name, oldValue, newValue);
  }

  /** The excluded case is a real one: when the first `update` creates the span
      without slotted content, repeating it writes `textContent` again and
      detaches the span it has just appended. */
  lemma RepeatedUpdateDetachesNewSpan(v: View, name: string, oldValue: Option<string>,
                                      newValue: Option<string>)
    requires CreatesSpan(v)
    requires Update(v, name, oldValue, newValue, false).thrown.None?
    ensures var r1 := Update(v, name, oldValue, newValue, false);
            var r2 := Update(r1.view, name, oldValue, newValue, false);
            A11ySpanNode in r1.view.button.children && A11ySpanNode !in r2.view.button.children &&
            r2.view.a11yText == r1.view.a11yText
  {
    var r1 := Update(v, name, oldValue, newValue, false);
    UpdateLabelPrecedence(v, name, oldValue, newValue, false);
    ClassStepIdempotent(v.button.classList, v.attrs, name, oldValue, newValue);
    var r2 := Update(r1.view, name, oldValue, newValue, false);
    UpdateLabelPrecedence(r1.view, name, oldValue, newValue, false);
    assert A11ySpanNode !in ReplaceAll(Label(v.attrs));
  }
}
