/** The declarative property schema of `<web-button>` (`propSpecs`), its two
    allow-list validators and the observed-attribute list derived from it.
    The schema is data only: its defaults, `required` flag and validators are
    not consulted by the update logic (see module WebButtonSpec). */
module ButtonSchema {

  import opened Dom

  const AcceptableTypes: seq<string> := ["default", "primary", "danger", "neutral", "link"]
  const AcceptableSizes: seq<string> := ["small", "medium", "large"]

  /** The JavaScript constructor given as a property's type. */
  datatype PropType = StringType | BooleanType | ArrayType

  datatype DefaultValue = BoolDefault(b: bool) | StringDefault(s: string)

  /** The two validator functions of the schema. */
  datatype Validator = SizeValidator | TypeValidator

  /** One entry of `propSpecs`; a bare constructor (`accessibilityText: String`)
      is an entry with a type only. */
  datatype PropSpec = PropSpec(
    name: string,
    propType: PropType,
    defaultValue: Option<DefaultValue>,
    required: bool,
    validator: Option<Validator>)

  /** `propSpecs`, in declaration order. */
  const PropSpecs: seq<PropSpec> := [
    PropSpec("accessibilityText", StringType, None, false, None),
    PropSpec("disabled", BooleanType, Some(BoolDefault(false)), false, None),
    PropSpec("faIcon", ArrayType, None, false, None),
    PropSpec("id", StringType, None, true, None),
    PropSpec("label", StringType, Some(StringDefault("Button")), false, None),
    PropSpec("size", StringType, Some(StringDefault("medium")), false, Some(SizeValidator)),
    PropSpec("type", StringType, Some(StringDefault("default")), false, Some(TypeValidator))
  ]

  /** `Array.prototype.indexOf` with strict equality: the first position of
      `value`, or -1 when it does not occur. */
  function IndexOf(list: seq<string>, value: string): (r: int)
    ensures -1 <= r < |list|
    ensures r == -1 <==> value !in list
    ensures 0 <= r ==> list[r] == value && value !in list[..r]
  {
    if list == [] then -1
    else if list[0] == value then 0
    else
      var k := IndexOf(list[1..], value);
      if k == -1 then -1
      else
        assert list[..k + 1] == [list[0]] + list[1..][..k];
        k + 1
  }

  /** The `size` validator, `acceptableSizes.includes(value)`. */
  function ValidSize(value: string): (ok: bool)
    ensures ok <==> value == "small" || value == "medium" || value == "large"
  {
    value in AcceptableSizes
  }

  /** The `type` validator, `acceptableTypes.indexOf(value) !== -1`. */
  function ValidType(value: string): (ok: bool)
    ensures ok <==>
      value == "default" || value == "primary" || value == "danger" ||
      value == "neutral" || value == "link"
  {
    IndexOf(AcceptableTypes, value) != -1
  }

  /** Runs the validator an entry names. */
  function Validate(v: Validator, value: string): bool
  {
    match v
    case SizeValidator => ValidSize(value)
    case TypeValidator => ValidType(value)
  }

  /** `Object.keys`: the entry names in declaration order. */
  function Keys(specs: seq<PropSpec>): (r: seq<string>)
    ensures |r| == |specs|
    ensures forall i | 0 <= i < |specs| :: r[i] == specs[i].name
  {
    if specs == [] then [] else [specs[0].name] + Keys(specs[1..])
  }

  /** `WebButton.observedAttributes`: exactly the keys of `propSpecs`, seven
      distinct names in declaration order. */
  function ObservedAttributes(): (r: seq<string>)
    ensures r == ["accessibilityText", "disabled", "faIcon", "id", "label", "size", "type"]
    ensures forall i, j | 0 <= i < j < |r| :: r[i] != r[j]
  {
    var r := Keys(PropSpecs);
    var names := ["accessibilityText", "disabled", "faIcon", "id", "label", "size", "type"];
    assert |r| == |names|;
    assert forall i | 0 <= i < |names| :: r[i] == PropSpecs[i].name == names[i];
    assert r == names;
    r
  }

  /** The schema's validators sit exactly on `size` and `type`, only `id` is
      required, and each declared default passes its property's validator. */
  lemma SchemaShape()
    ensures forall i | 0 <= i < |PropSpecs| ::
      PropSpecs[i].validator.Some? <==> PropSpecs[i].name in {"size", "type"}
    ensures forall i | 0 <= i < |PropSpecs| ::
      PropSpecs[i].required <==> PropSpecs[i].name == "id"
    ensures forall i | 0 <= i < |PropSpecs| && PropSpecs[i].validator.Some? &&
                       PropSpecs[i].defaultValue.Some? && PropSpecs[i].defaultValue.value.StringDefault? ::
      Validate(PropSpecs[i].validator.value, PropSpecs[i].defaultValue.value.s)
  {
  }
}
