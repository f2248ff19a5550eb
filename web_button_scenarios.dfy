/** Concrete runs of the element, stated as lemmas. Several show where the
    code as written does not do what its own property schema declares: the
    defaults of `propSpecs` are never applied, the validators never run and
    the required `id` may be absent. Others show the class list without
    `btn` and the accessibility span detached by a `textContent` write.
    Each run is taken one event at a time, through the explicit state after
    it. */
module WebButtonScenarios {

  import opened Dom
  import opened ButtonSchema
  import opened WebButtonSpec

  lemma RunOne(v: View, e: Event)
    ensures Run(v, [e]) == Step(v, e)
  {
    assert [e][1..] == [];
  }

  lemma RunTwo(v: View, e1: Event, e2: Event)
    ensures Run(v, [e1, e2]) == Step(Step(v, e1), e2)
  {
    assert [e1, e2][1..] == [e2];
    RunOne(Step(v, e1), e2);
  }

  /** `btn--null` is a token the class list accepts. */
  lemma NullIsValidModifier()
    ensures ValidToken(ModifierClass(None))
  {
    assert forall i | 0 <= i < |"null"| :: !IsAsciiWhitespace("null"[i]);
  }

  /** A value without whitespace gives the accepted token `btn--<value>`. */
  lemma PlainModifier(value: string)
    requires forall i | 0 <= i < |value| :: !IsAsciiWhitespace(value[i])
    ensures ModifierClass(Some(value)) == "btn--" + value
    ensures ValidToken(ModifierClass(Some(value)))
  {
  }

  /** The first attribute change on a new element, for a non-modifier
      attribute whose value is not used for `size`, `type` or `id`. */
  lemma FirstUnionUpdate(name: string, value: string)
    requires !IsModifierAxis(name) && name != "id" && name != "disabled"
    ensures var r := Update(SetAttribute(Initial(map[]), name, Some(value)), name, None, Some(value), false);
            r.thrown.None? &&
            r.view.attrs == map[name := value] &&
            r.view.button.id == "null" && !r.view.button.disabled &&
            r.view.button.classList == {"btn", "btn--null"}
  {
    var u := SetAttribute(Initial(map[]), name, Some(value));
    assert u.attrs == map[name := value];
    assert GetAttribute(u.attrs, "size") == None && GetAttribute(u.attrs, "type") == None;
    NullIsValidModifier();
  }

  /** The schema declares the defaults `Button`, `medium` and `default`
      and a required `id`, but `update` reads the raw attributes: with none
      set, the label is empty, both modifier classes are `btn--null` and the
      id is "null". */
  lemma SchemaDefaultsUnused()
    ensures PropSpecs[3].name == "id" && PropSpecs[3].required
    ensures PropSpecs[4].name == "label" && PropSpecs[4].defaultValue == Some(StringDefault("Button"))
    ensures PropSpecs[5].name == "size" && PropSpecs[5].defaultValue == Some(StringDefault("medium"))
    ensures PropSpecs[6].name == "type" && PropSpecs[6].defaultValue == Some(StringDefault("default"))
    ensures var r := Update(Initial(map[]), "label", None, None, false);
            r.thrown.None? && ButtonText(r.view) == "" && r.view.button.id == "null" &&
            r.view.button.classList == {"btn", "btn--null"}
  {
    NullIsValidModifier();
    assert GetAttribute(map[], "size") == None && GetAttribute(map[], "type") == None;
    assert GetAttribute(map[], "label") == None && GetAttribute(map[], "accessibilityText") == None;
  }

  /** Only `label` set: the modifier classes are built from `null` and the
      id from `null` too; no default (`medium`, `default`) is used. */
  lemma AbsentModifiersGiveNullClass()
    ensures var v := Run(Initial(map[]), [AttributeChanged("label", Some("Submit"), false)]);
            v.button.classList == {"btn", "btn--null"} && v.button.id == "null" &&
            ButtonText(v) == "Submit"
  {
    var e := AttributeChanged("label", Some("Submit"), false);
    FirstUnionUpdate("label", "Submit");
    RunOne(Initial(map[]), e);
  }

  /** The first step of SizeAndTypeAloneLackBaseClass. */
  lemma SizeSmallOnNewElement()
    ensures Step(Initial(map[]), AttributeChanged("size", Some("small"), false)) ==
            View(map["size" := "small"], ButtonState("null", false, {"btn--small"}, []), None)
  {
    NullIsValidModifier();
    PlainModifier("small");
    assert "btn--" + "small" == "btn--small";
    var u := SetAttribute(Initial(map[]), "size", Some("small"));
    assert u.attrs == map["size" := "small"];
    assert GetAttribute(u.attrs, "label") == None && GetAttribute(u.attrs, "accessibilityText") == None;
  }

  /** The second step of SizeAndTypeAloneLackBaseClass. */
  lemma TypePrimaryAfterSize()
    ensures Step(View(map["size" := "small"], ButtonState("null", false, {"btn--small"}, []), None),
                 AttributeChanged("type", Some("primary"), false)) ==
            View(map["size" := "small", "type" := "primary"],
                 ButtonState("null", false, {"btn--small", "btn--primary"}, []), None)
  {
    var v := View(map["size" := "small"], ButtonState("null", false, {"btn--small"}, []), None);
    var attrs := map["size" := "small", "type" := "primary"];
    var u := SetAttribute(v, "type", Some("primary"));
    assert u.attrs == attrs;
    assert GetAttribute(v.attrs, "type") == None;
    NullIsValidModifier();
    PlainModifier("primary");
    assert "btn--" + "primary" == "btn--primary";
    var r := ClassStep({"btn--small"}, attrs, "type", None, Some("primary"));
    assert r.thrown.None? && r.classes == {"btn--small"} - {"btn--null"} + {"btn--primary"};
    assert r.classes == {"btn--small", "btn--primary"};
    assert "id" !in attrs && "disabled" !in attrs;
    var v3 := View(attrs, ButtonState("null", false, {"btn--small", "btn--primary"}, []), None);
    assert GetAttribute(attrs, "label") == None;
    assert UpdateLabel(v3, false) == v3;
    assert GetAttribute(attrs, "accessibilityText") == None;
    assert UpdateA11yText(v3) == v3;
    assert Update(u, "type", None, Some("primary"), false) == UpdateResult(v3, None);
  }

  /** Only `size` and `type` set, in that order: both changes take the diff
      branch, so `btn` is never added. */
  lemma SizeAndTypeAloneLackBaseClass()
    ensures var v := Run(Initial(map[]), [AttributeChanged("size", Some("small"), false),
                                          AttributeChanged("type", Some("primary"), false)]);
            v.button.classList == {"btn--small", "btn--primary"} && "btn" !in v.button.classList
  {
    SizeSmallOnNewElement();
    TypePrimaryAfterSize();
    RunTwo(Initial(map[]), AttributeChanged("size", Some("small"), false),
           AttributeChanged("type", Some("primary"), false));
  }

  /** The state after `label` is first set on a new element. */
  lemma LabelOnNewElement(text: string)
    ensures Step(Initial(map[]), AttributeChanged("label", Some(text), false)) ==
            View(map["label" := text], ButtonState("null", false, {"btn", "btn--null"}, ReplaceAll(text)), None)
  {
    FirstUnionUpdate("label", text);
    var u := SetAttribute(Initial(map[]), "label", Some(text));
    assert GetAttribute(u.attrs, "label") == Some(text);
    assert GetAttribute(u.attrs, "accessibilityText") == None;
  }

  /** The second step of InvalidTypeIsKept. */
  lemma GiantTypeAfterLabel(labelText: string)
    ensures Step(View(map["label" := labelText],
                      ButtonState("null", false, {"btn", "btn--null"}, ReplaceAll(labelText)), None),
                 AttributeChanged("type", Some("giant"), false)) ==
            View(map["label" := labelText, "type" := "giant"],
                 ButtonState("null", false, {"btn", "btn--giant"}, ReplaceAll(labelText)), None)
  {
    var v := View(map["label" := labelText],
                  ButtonState("null", false, {"btn", "btn--null"}, ReplaceAll(labelText)), None);
    var attrs := map["label" := labelText, "type" := "giant"];
    var u := SetAttribute(v, "type", Some("giant"));
    assert u.attrs == attrs;
    assert GetAttribute(v.attrs, "type") == None;
    NullIsValidModifier();
    PlainModifier("giant");
    assert "btn--" + "giant" == "btn--giant";
    var r := ClassStep({"btn", "btn--null"}, attrs, "type", None, Some("giant"));
    assert r.thrown.None? && r.classes == {"btn", "btn--null"} - {"btn--null"} + {"btn--giant"};
    assert r.classes == {"btn", "btn--giant"};
    assert "id" !in attrs && "disabled" !in attrs;
    var v2 := View(attrs, ButtonState("null", false, {"btn", "btn--giant"}, ReplaceAll(labelText)), None);
    assert GetAttribute(attrs, "label") == Some(labelText);
    assert UpdateLabel(v2, false) == v2;
    assert GetAttribute(attrs, "accessibilityText") == None;
    assert UpdateA11yText(v2) == v2;
    assert Update(u, "type", None, Some("giant"), false) == UpdateResult(v2, None);
  }

  /** An invalid `type` is not replaced by the default: the validator rejects
      "giant", yet `btn--giant` is added. Removing `btn--null` for the old
      `type` also removes the `btn--null` that stood for the absent `size`. */
  lemma InvalidTypeIsKept()
    ensures !ValidType("giant")
    ensures var v := Run(Initial(map[]), [AttributeChanged("label", Some("Go"), false),
                                          AttributeChanged("type", Some("giant"), false)]);
            v.button.classList == {"btn", "btn--giant"}
  {
    var e1 := AttributeChanged("label", Some("Go"), false);
    var e2 := AttributeChanged("type", Some("giant"), false);
    LabelOnNewElement("Go");
    GiantTypeAfterLabel("Go");
    RunTwo(Initial(map[]), e1, e2);
  }

  /** The state after `accessibilityText` is first set on a new element: the
      span is created and attached. */
  lemma A11yTextOnNewElement(text: string)
    requires text != ""
    ensures Step(Initial(map[]), AttributeChanged("accessibilityText", Some(text), false)) ==
            View(map["accessibilityText" := text],
                 ButtonState("null", false, {"btn", "btn--null"}, [A11ySpanNode]),
                 Some(SpanState(SrOnly, text)))
  {
    FirstUnionUpdate("accessibilityText", text);
    var u := SetAttribute(Initial(map[]), "accessibilityText", Some(text));
    assert GetAttribute(u.attrs, "label") == None;
    assert GetAttribute(u.attrs, "accessibilityText") == Some(text);
  }

  /** With neither `size` nor `type` set, the union step adds nothing to a
      class set that already holds `btn` and `btn--null`. */
  lemma NullUnionStable(attrs: AttrMap, name: string, oldValue: Option<string>, newValue: Option<string>)
    requires "size" !in attrs && "type" !in attrs && !IsModifierAxis(name)
    ensures ClassStep({"btn", "btn--null"}, attrs, name, oldValue, newValue) ==
            ClassStepResult({"btn", "btn--null"}, None)
  {
    NullIsValidModifier();
    assert GetAttribute(attrs, "size") == None && GetAttribute(attrs, "type") == None;
  }

  /** The second step of RelabelDetachesSpan. */
  lemma LabelAfterSpan(text: string, labelText: string)
    requires text != "" && labelText != ""
    ensures Step(View(map["accessibilityText" := text],
                      ButtonState("null", false, {"btn", "btn--null"}, [A11ySpanNode]),
                      Some(SpanState(SrOnly, text))),
                 AttributeChanged("label", Some(labelText), false)) ==
            View(map["accessibilityText" := text, "label" := labelText],
                 ButtonState("null", false, {"btn", "btn--null"}, [TextNode(labelText)]),
                 Some(SpanState(SrOnly, text)))
  {
    var v := View(map["accessibilityText" := text],
                  ButtonState("null", false, {"btn", "btn--null"}, [A11ySpanNode]),
                  Some(SpanState(SrOnly, text)));
    var attrs := map["accessibilityText" := text, "label" := labelText];
    var u := SetAttribute(v, "label", Some(labelText));
    assert u.attrs == attrs;
    assert GetAttribute(v.attrs, "label") == None;
    NullUnionStable(attrs, "label", None, Some(labelText));
    assert "id" !in attrs && "disabled" !in attrs;
    var v2 := View(attrs, ButtonState("null", false, {"btn", "btn--null"}, [A11ySpanNode]),
                   Some(SpanState(SrOnly, text)));
    assert GetAttribute(attrs, "label") == Some(labelText);
    var v3 := View(attrs, ButtonState("null", false, {"btn", "btn--null"}, [TextNode(labelText)]),
                   Some(SpanState(SrOnly, text)));
    assert UpdateLabel(v2, false) == v3;
    assert GetAttribute(attrs, "accessibilityText") == Some(text);
    assert UpdateA11yText(v3) == v3;
    assert Update(u, "label", None, Some(labelText), false) == UpdateResult(v3, None);
  }

  /** Setting `label` after the span exists rewrites `textContent`, which
      removes the span from the button; `a11yText` still refers to it. */
  lemma RelabelDetachesSpan()
    ensures var v := Run(Initial(map[]), [AttributeChanged("accessibilityText", Some("Close dialog"), false),
                                          AttributeChanged("label", Some("Submit"), false)]);
            v.a11yText == Some(SpanState(SrOnly, "Close dialog")) &&
            v.button.children == [TextNode("Submit")] && ButtonText(v) == "Submit"
  {
    var e1 := AttributeChanged("accessibilityText", Some("Close dialog"), false);
    var e2 := AttributeChanged("label", Some("Submit"), false);
    A11yTextOnNewElement("Close dialog");
    LabelAfterSpan("Close dialog", "Submit");
    RunTwo(Initial(map[]), e1, e2);
  }

  /** The second step of A11yTextChangeUpdatesDetachedSpan. */
  lemma A11yTextAfterSpan(text: string, text2: string)
    requires text != "" && text2 != ""
    ensures Step(View(map["accessibilityText" := text],
                      ButtonState("null", false, {"btn", "btn--null"}, [A11ySpanNode]),
                      Some(SpanState(SrOnly, text))),
                 AttributeChanged("accessibilityText", Some(text2), false)) ==
            View(map["accessibilityText" := text2],
                 ButtonState("null", false, {"btn", "btn--null"}, []),
                 Some(SpanState(SrOnly, text2)))
  {
    var v := View(map["accessibilityText" := text],
                  ButtonState("null", false, {"btn", "btn--null"}, [A11ySpanNode]),
                  Some(SpanState(SrOnly, text)));
    var attrs := map["accessibilityText" := text2];
    var u := SetAttribute(v, "accessibilityText", Some(text2));
    assert u.attrs == attrs;
    assert GetAttribute(v.attrs, "accessibilityText") == Some(text);
    NullUnionStable(attrs, "accessibilityText", Some(text), Some(text2));
    assert "id" !in attrs && "disabled" !in attrs;
    var v2 := View(attrs, ButtonState("null", false, {"btn", "btn--null"}, [A11ySpanNode]),
                   Some(SpanState(SrOnly, text)));
    assert GetAttribute(attrs, "label") == None;
    var v3 := View(attrs, ButtonState("null", false, {"btn", "btn--null"}, []),
                   Some(SpanState(SrOnly, text)));
    assert UpdateLabel(v2, false) == v3;
    assert GetAttribute(attrs, "accessibilityText") == Some(text2);
    assert UpdateA11yText(v3) == v3.(a11yText := Some(SpanState(SrOnly, text2)));
    assert Update(u, "accessibilityText", Some(text), Some(text2), false) ==
           UpdateResult(v3.(a11yText := Some(SpanState(SrOnly, text2))), None);
  }

  /** Changing `accessibilityText` updates the one existing span instead of
      creating a second, but the same `update` first clears the text, so the
      span is detached and the button's text is empty. */
  lemma A11yTextChangeUpdatesDetachedSpan()
    ensures var v := Run(Initial(map[]), [AttributeChanged("accessibilityText", Some("Close dialog"), false),
                                          AttributeChanged("accessibilityText", Some("Close dialog v2"), false)]);
            v.a11yText == Some(SpanState(SrOnly, "Close dialog v2")) &&
            v.button.children == [] && ButtonText(v) == ""
  {
    var e1 := AttributeChanged("accessibilityText", Some("Close dialog"), false);
    var e2 := AttributeChanged("accessibilityText", Some("Close dialog v2"), false);
    A11yTextOnNewElement("Close dialog");
    A11yTextAfterSpan("Close dialog", "Close dialog v2");
    RunTwo(Initial(map[]), e1, e2);
  }

  /** A `size` value with a space makes `classList.add` throw, so the label is
      never rendered and `id`/`disabled` are the only effects. */
  lemma WhitespaceSizeStopsRender()
    ensures var r := Update(Initial(map["size" := "extra large", "label" := "Go"]), "label", None, Some("Go"), false);
            r.thrown == Some(InvalidCharacterError) &&
            r.view.button.classList == {} && ButtonText(r.view) == "" && r.view.button.id == "null"
  {
    var attrs := map["size" := "extra large", "label" := "Go"];
    assert GetAttribute(attrs, "size") == Some("extra large");
    assert IsAsciiWhitespace("extra large"[5]);
    assert !ValidToken(ModifierClass(Some("extra large")));
    var cs := ClassStep({}, attrs, "label", None, Some("Go"));
    assert cs == ClassStepResult({}, Some(InvalidCharacterError));
    assert "id" !in attrs && "disabled" !in attrs;
    var v := View(attrs, ButtonState("null", false, {}, []), None);
    assert Update(Initial(attrs), "label", None, Some("Go"), false) == UpdateResult(v, Some(InvalidCharacterError));
  }

  /** The last step of LabelReturnsOnlyOnNextRender: any attribute change
      renders the label again over the blanked button. */
  lemma DisabledAfterBlank(labelText: string)
    ensures Step(View(map["label" := labelText], ButtonState("null", false, {"btn", "btn--null"}, []), None),
                 AttributeChanged("disabled", Some(""), false)) ==
            View(map["label" := labelText, "disabled" := ""],
                 ButtonState("null", true, {"btn", "btn--null"}, ReplaceAll(labelText)), None)
  {
    var v := View(map["label" := labelText], ButtonState("null", false, {"btn", "btn--null"}, []), None);
    var attrs := map["label" := labelText, "disabled" := ""];
    var u := SetAttribute(v, "disabled", Some(""));
    assert u.attrs == attrs;
    assert GetAttribute(v.attrs, "disabled") == None;
    NullUnionStable(attrs, "disabled", None, Some(""));
    assert "id" !in attrs && "disabled" in attrs && attrs["disabled"] == "";
    var v2 := View(attrs, ButtonState("null", true, {"btn", "btn--null"}, []), None);
    assert GetAttribute(attrs, "label") == Some(labelText);
    var v3 := View(attrs, ButtonState("null", true, {"btn", "btn--null"}, ReplaceAll(labelText)), None);
    assert UpdateLabel(v2, false) == v3;
    assert GetAttribute(attrs, "accessibilityText") == None;
    assert UpdateA11yText(v3) == v3;
    assert Update(u, "disabled", None, Some(""), false) == UpdateResult(v3, None);
  }

  /** Slotted content blanks the text; a later slot change with no nodes does
      not bring the label back, only the next attribute-driven render does. */
  lemma LabelReturnsOnlyOnNextRender()
    ensures var v1 := Run(Initial(map[]), [AttributeChanged("label", Some("Submit"), false), SlotChanged(1)]);
            ButtonText(v1) == "" &&
            ButtonText(Run(v1, [SlotChanged(0)])) == "" &&
            ButtonText(Run(v1, [SlotChanged(0), AttributeChanged("disabled", Some(""), false)])) == "Submit"
  {
    var e1 := AttributeChanged("label", Some("Submit"), false);
    var e3 := AttributeChanged("disabled", Some(""), false);
    LabelOnNewElement("Submit");
    var v := View(map["label" := "Submit"], ButtonState("null", false, {"btn", "btn--null"}, ReplaceAll("Submit")), None);
    var v1 := View(map["label" := "Submit"], ButtonState("null", false, {"btn", "btn--null"}, []), None);
    assert SlotChange(v, 1) == v1;
    RunTwo(Initial(map[]), e1, SlotChanged(1));
    assert SlotChange(v1, 0) == v1;
    RunOne(v1, SlotChanged(0));
    DisabledAfterBlank("Submit");
    RunTwo(v1, SlotChanged(0), e3);
    var v4 := View(map["label" := "Submit", "disabled" := ""],
                   ButtonState("null", true, {"btn", "btn--null"}, ReplaceAll("Submit")), None);
    assert ButtonText(v4) == "Submit";
  }
}
