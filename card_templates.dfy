/** Which configuration fields of the template gauge card are templates,
    what value each field resolves to, and the numeric defaults the card's
    render applies to the resolved fields. */
module CardTemplates {
  import opened Js
  import opened Constants

  /** TEMPLATE_KEYS: the fields that may hold a template. */
  datatype TemplateKey =
    | ValueKey | ValueTextKey | NameKey | MinKey | MaxKey | SegmentsTemplateKey | SeverityTemplateKey

  const TEMPLATE_KEYS: seq<TemplateKey> :=
    [ValueKey, ValueTextKey, NameKey, MinKey, MaxKey, SegmentsTemplateKey, SeverityTemplateKey]

  function KeyName(k: TemplateKey): string
  {
    match k
    case ValueKey => "value"
    case ValueTextKey => "valueText"
    case NameKey => "name"
    case MinKey => "min"
    case MaxKey => "max"
    case SegmentsTemplateKey => "segmentsTemplate"
    case SeverityTemplateKey => "severityTemplate"
  }

  /** What the template's result depends on, as the host reports it. */
  datatype Listeners = Listeners(all: bool, domains: seq<string>, entities: seq<string>, time: bool)

  /** One pushed evaluation of a template. */
  datatype RenderResult = RenderResult(result: JsValue, listeners: Listeners)

  type TemplateResults = map<TemplateKey, RenderResult>

  /** `this._config?.[key]`. */
  function FieldOf(config: Option<Fields>, key: TemplateKey): JsValue
  {
    if config.None? then Undefined else Get(config.value, KeyName(key))
  }

  /** `this._templateResults?.[key]?.result`. */
  function ResultOf(results: Option<TemplateResults>, key: TemplateKey): JsValue
  {
    if results.Some? && key in results.value then results.value[key].result else Undefined
  }

  /** isTemplate: the field's string form contains a brace. */
  predicate IsTemplate(h: Host, config: Option<Fields>, key: TemplateKey)
  {
    '{' in ToStr(h, FieldOf(config, key))
  }

  /** getValue: a template field reads its latest result as text (undefined
      before the first result arrives); any other field reads the configured
      value as it is. */
  function GetValue(h: Host, config: Option<Fields>, results: Option<TemplateResults>, key: TemplateKey): JsValue
  {
    if IsTemplate(h, config, key) then
      var r := ResultOf(results, key);
      if Nullish(r) then Undefined else Str(ToStr(h, r))
    else FieldOf(config, key)
  }

  /** `Boolean(v) ? Number(v) : fallback`. */
  function NumberOr(h: Host, v: JsValue, fallback: real): Num
  {
    if Truthy(v) then ToNumber(h, v) else Fin(fallback)
  }

  /** `Boolean(v) ? v : ""`. */
  function TextOr(v: JsValue): JsValue
  {
    if Truthy(v) then v else Str("")
  }

  /** The numbers and texts the card hands to the gauge. */
  datatype RenderInputs = RenderInputs(value: Num, valueText: JsValue, name: JsValue, min: Num, max: Num)

  /** The defaults applied at the top of render (and, for min and max, in
      updated). */
  function Inputs(h: Host, config: Option<Fields>, results: Option<TemplateResults>): RenderInputs
  {
    RenderInputs(
      NumberOr(h, GetValue(h, config, results, ValueKey), 0.0),
      TextOr(GetValue(h, config, results, ValueTextKey)),
      TextOr(GetValue(h, config, results, NameKey)),
      NumberOr(h, GetValue(h, config, results, MinKey), DEFAULT_MIN),
      NumberOr(h, GetValue(h, config, results, MaxKey), DEFAULT_MAX))
  }

  /** A string field is a template exactly when it contains a brace. */
  lemma StringTemplateIffBrace(h: Host, config: Option<Fields>, key: TemplateKey, s: string)
    requires FieldOf(config, key) == Str(s)
    ensures IsTemplate(h, config, key) <==> '{' in s
  {
  }

  /** Numbers, booleans and missing fields are never templates, so they
      read as configured. */
  lemma NonStringsAreLiterals(h: Host, config: Option<Fields>, results: Option<TemplateResults>, key: TemplateKey)
    requires Coherent(h)
    requires FieldOf(config, key).Number? || FieldOf(config, key).Bool? || FieldOf(config, key).Undefined?
    ensures !IsTemplate(h, config, key)
    ensures GetValue(h, config, results, key) == FieldOf(config, key)
  {
    var v := FieldOf(config, key);
    if v.Number? && v.n.Fin? {
      assert ToStr(h, v) == h.format(v.n.r);
    } else if v.Number? {
      assert ToStr(h, v) == "NaN";
      assert forall i :: 0 <= i < 3 ==> "NaN"[i] != '{';
    } else if v.Bool? {
      assert forall i :: 0 <= i < 4 ==> "true"[i] != '{';
      assert forall i :: 0 <= i < 5 ==> "false"[i] != '{';
    } else {
      assert forall i :: 0 <= i < 9 ==> "undefined"[i] != '{';
    }
  }

  /** A template field reads the text of its latest result, and a field
      without a configuration reads undefined. */
  lemma TemplateReadsResultText(h: Host, config: Option<Fields>, results: Option<TemplateResults>, key: TemplateKey)
    requires IsTemplate(h, config, key)
    requires results.Some? && key in results.value && !Nullish(results.value[key].result)
    ensures GetValue(h, config, results, key) == Str(ToStr(h, results.value[key].result))
  {
  }

  /** The range defaults: a missing, empty or zero `max` (literal) gives
      DEFAULT_MAX, so a configured `max: 0` becomes 100; the same for
      `min` and DEFAULT_MIN, and for `value` and 0. */
  lemma FalsyFieldsDefault(h: Host, config: Option<Fields>, results: Option<TemplateResults>)
    requires Coherent(h)
    requires FieldOf(config, MaxKey) in {Undefined, Str(""), Number(Fin(0.0))}
    ensures Inputs(h, config, results).max == Fin(100.0)
  {
    if FieldOf(config, MaxKey) != Str("") {
      NonStringsAreLiterals(h, config, results, MaxKey);
    }
  }

  /** A template that evaluates to 0 is kept as 0: its text "0" is truthy,
      unlike the literal number 0. */
  lemma TemplateZeroKept(h: Host, config: Option<Fields>, results: Option<TemplateResults>)
    requires Coherent(h)
    requires IsTemplate(h, config, MaxKey)
    requires results.Some? && MaxKey in results.value
    requires results.value[MaxKey].result == Number(Fin(0.0))
    ensures Inputs(h, config, results).max == Fin(0.0)
  {
    assert h.parse(h.format(0.0)) == Fin(0.0);
  }

  /** A literal numeric `max` other than 0 is used as it is. */
  lemma LiteralMaxUsed(h: Host, config: Option<Fields>, results: Option<TemplateResults>, m: real)
    requires Coherent(h)
    requires FieldOf(config, MaxKey) == Number(Fin(m)) && m != 0.0
    ensures Inputs(h, config, results).max == Fin(m)
  {
    NonStringsAreLiterals(h, config, results, MaxKey);
  }
}
