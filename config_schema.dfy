/** The configuration schema `templateCardConfigStruct`: the card's own
    fields merged (superstruct `assign`) into the host's base card schema.
    A superstruct `object` accepts any non-null object (arrays included),
    checks every field of its schema (a missing field reads as undefined)
    and rejects every key it does not know. */
module ConfigSchema {
  import opened Js

  /** What the host contributes: the keys of its base card schema with
      their check, and the check of an action descriptor. */
  datatype External = External(
    baseKeys: set<string>,
    baseFieldOk: (string, JsValue) -> bool,
    actionOk: JsValue -> bool)

  /** The set of keys of an object-like value. */
  function KeySet(v: JsValue): set<string>
  {
    match v
    case Obj(fs) => Names(fs)
    case Arr(items) => set i | 0 <= i < |items| :: NatText(i)
    case _ => {}
  }

  /** superstruct `object(schema)` before its field checks: an object (or
      array) whose keys the schema all knows. */
  predicate ObjectWithKeys(v: JsValue, known: set<string>)
  {
    (v.Obj? || v.Arr?) && KeySet(v) <= known
  }

  /** superstruct `number()`: a number that is not NaN. */
  predicate IsNumber(v: JsValue)
  {
    v.Number? && v.n.Fin?
  }

  predicate OptString(v: JsValue)
  {
    v.Undefined? || v.Str?
  }

  predicate OptBool(v: JsValue)
  {
    v.Undefined? || v.Bool?
  }

  predicate OptNumberOrString(v: JsValue)
  {
    v.Undefined? || IsNumber(v) || v.Str?
  }

  /** `severityStruct`: exactly the numeric fields green, yellow and red. */
  predicate SeverityOk(v: JsValue)
  {
    && ObjectWithKeys(v, {"green", "yellow", "red"})
    && IsNumber(Prop(v, "green"))
    && IsNumber(Prop(v, "yellow"))
    && IsNumber(Prop(v, "red"))
  }

  /** `gaugeSegmentStruct`: a numeric `from` and a string `color`. */
  predicate SegmentOk(v: JsValue)
  {
    ObjectWithKeys(v, {"from", "color"}) && IsNumber(Prop(v, "from")) && Prop(v, "color").Str?
  }

  predicate SegmentsOk(v: JsValue)
  {
    v.Arr? && forall i :: 0 <= i < |v.items| ==> SegmentOk(v.items[i])
  }

  /** `gradientResolutionStruct`. */
  predicate ResolutionOk(v: JsValue)
  {
    v.Str? && v.s in ["low", "medium", "high"]
  }

  predicate EntityIdOk(v: JsValue)
  {
    v.Str? || (v.Arr? && forall i :: 0 <= i < |v.items| ==> v.items[i].Str?)
  }

  const OWN_KEYS: set<string> := {
    "entity", "value", "valueText", "name", "min", "max", "needle",
    "severity", "severityTemplate", "segments", "segmentsTemplate",
    "gradient", "gradientResolution", "tap_action", "hold_action",
    "double_tap_action", "entity_id"}

  /** The template keys are strings whenever present. */
  const STRING_KEYS: set<string> := {
    "entity", "value", "valueText", "name", "severityTemplate", "segmentsTemplate"}

  /** The card's own fields, each optional. */
  predicate OwnFieldsOk(ext: External, v: JsValue)
  {
    && (forall k :: k in STRING_KEYS ==> OptString(Prop(v, k)))
    && OptNumberOrString(Prop(v, "min"))
    && OptNumberOrString(Prop(v, "max"))
    && OptBool(Prop(v, "needle"))
    && OptBool(Prop(v, "gradient"))
    && (Prop(v, "severity").Undefined? || SeverityOk(Prop(v, "severity")))
    && (Prop(v, "segments").Undefined? || SegmentsOk(Prop(v, "segments")))
    && (Prop(v, "gradientResolution").Undefined? || ResolutionOk(Prop(v, "gradientResolution")))
    && (Prop(v, "tap_action").Undefined? || ext.actionOk(Prop(v, "tap_action")))
    && (Prop(v, "hold_action").Undefined? || ext.actionOk(Prop(v, "hold_action")))
    && (Prop(v, "double_tap_action").Undefined? || ext.actionOk(Prop(v, "double_tap_action")))
    && (Prop(v, "entity_id").Undefined? || EntityIdOk(Prop(v, "entity_id")))
  }

  /** `templateCardConfigStruct` accepts v. */
  predicate ValidConfig(ext: External, v: JsValue)
  {
    && ObjectWithKeys(v, OWN_KEYS + ext.baseKeys)
    && (forall k :: k in ext.baseKeys && k !in OWN_KEYS ==> ext.baseFieldOk(k, Prop(v, k)))
    && OwnFieldsOk(ext, v)
  }

  /** `value` is optional: removing it from a valid configuration leaves
      the configuration valid (so a configuration without it validates). */
  lemma ValueOptional(ext: External, fs: Fields)
    requires ValidConfig(ext, Obj(fs))
    ensures ValidConfig(ext, Obj(Delete(fs, "value")))
  {
    var fs' := Delete(fs, "value");
    assert forall k :: k != "value" ==> Prop(Obj(fs'), k) == Prop(Obj(fs), k);
    assert Prop(Obj(fs'), "value") == Undefined;
  }

  /** A configuration holding a key that neither schema knows is rejected,
      whatever its other fields. */
  lemma UnknownKeyRejected(ext: External, fs: Fields, k: string)
    requires k in Names(fs) && k !in OWN_KEYS && k !in ext.baseKeys
    ensures !ValidConfig(ext, Obj(fs))
  {
  }

  /** A valid severity object has exactly the keys green, yellow and red,
      each bound to a number. */
  lemma SeverityKeys(v: JsValue)
    requires SeverityOk(v) && v.Obj?
    ensures Names(v.fields) == {"green", "yellow", "red"}
  {
    assert "green" in Names(v.fields);
    assert "yellow" in Names(v.fields);
    assert "red" in Names(v.fields);
  }

  /** `min` and `max` accept a number or a string and nothing else. */
  lemma RangeFieldTypes(ext: External, v: JsValue)
    requires ValidConfig(ext, v)
    ensures Prop(v, "min").Undefined? || Prop(v, "min").Str? || (Prop(v, "min").Number? && Prop(v, "min").n.Fin?)
    ensures Prop(v, "max").Undefined? || Prop(v, "max").Str? || (Prop(v, "max").Number? && Prop(v, "max").n.Fin?)
  {
  }

  /** Every segment of a valid configuration has a numeric `from` and a
      string `color`; the switches are booleans, the resolution one of the
      three names and `entity_id` a string or a list of strings. */
  lemma FieldTypes(ext: External, v: JsValue)
    requires ValidConfig(ext, v)
    ensures Prop(v, "segments").Undefined? || Prop(v, "segments").Arr?
    ensures Prop(v, "segments").Arr? ==>
      forall i :: 0 <= i < |Prop(v, "segments").items| ==>
        IsNumber(Prop(Prop(v, "segments").items[i], "from")) && Prop(Prop(v, "segments").items[i], "color").Str?
    ensures OptBool(Prop(v, "needle")) && OptBool(Prop(v, "gradient"))
    ensures Prop(v, "gradientResolution").Undefined? || Prop(v, "gradientResolution") in {Str("low"), Str("medium"), Str("high")}
    ensures var e := Prop(v, "entity_id");
      e.Undefined? || e.Str? || (e.Arr? && forall i :: 0 <= i < |e.items| ==> e.items[i].Str?)
  {
  }
}
