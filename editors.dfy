/** The two visual editors: the template gauge card's editor and the
    gauge card editor. Each validates the configuration it is given, shows
    a form whose fields depend on the configuration, and turns an edited
    form back into a configuration. */
module Editors {
  import opened Js
  import opened Constants
  import opened ConfigSchema

  // ---------------------------------------------------------------------
  // Form schemas

  datatype Selector =
    | EntitySelector(domains: seq<string>)
    | TemplateSelector
    | BooleanSelector
    | NumberBoxSelector
    | SelectSelector(options: seq<string>)
    | ActionSelector

  /** One entry of a form schema: an input, a grid of entries (flattened
      into the same data), or an empty placeholder `{}`. */
  datatype FormItem =
    | Input(name: string, selector: Selector)
    | Grid(name: string, schema: seq<FormItem>)
    | Spacer

  /** The entry shows a field of that name (an unnamed grid only lays
      out its entries). */
  predicate ItemShows(item: FormItem, name: string)
  {
    match item
    case Input(n, _) => n == name
    case Grid(n, s) => (n != "" && n == name) || exists j :: 0 <= j < |s| && s[j].Input? && s[j].name == name
    case Spacer => false
  }

  predicate Shows(items: seq<FormItem>, name: string)
  {
    exists i :: 0 <= i < |items| && ItemShows(items[i], name)
  }

  const GAUGE_DOMAINS: seq<string> := ["counter", "input_number", "number", "sensor"]

  /** The shared action entries (the host's action form schema). */
  const ACTION_ITEMS: seq<FormItem> :=
    [Input("tap_action", ActionSelector), Input("hold_action", ActionSelector),
     Input("double_tap_action", ActionSelector)]

  const SEVERITY_GRID: FormItem :=
    Grid("severity", [Input("green", NumberBoxSelector), Input("yellow", NumberBoxSelector),
                      Input("red", NumberBoxSelector)])

  /** The entries both editors start with. */
  const FIELD_ITEMS: seq<FormItem> :=
    [Input("entity", EntitySelector(GAUGE_DOMAINS)), Input("value", TemplateSelector),
     Input("valueText", TemplateSelector), Input("name", TemplateSelector),
     Input("min", TemplateSelector), Input("max", TemplateSelector)]

  /** The template card editor's `_schema(showSeverity)`. */
  function TemplateSchema(showSeverity: bool): seq<FormItem>
  {
    FIELD_ITEMS
    + [Grid("", [Input("needle", BooleanSelector), Input("show_severity", BooleanSelector),
                 Input("gradient", BooleanSelector)])]
    + (if showSeverity then [SEVERITY_GRID] else [])
    + ACTION_ITEMS
  }

  const RESOLUTION_OPTIONS: seq<string> := ["low", "medium", "high"]

  /** The gauge card editor's `_schema(showSeverity, showGradient,
      showGradientResolution)`. */
  function GaugeSchema(showSeverity: bool, showGradient: bool, showResolution: bool): seq<FormItem>
  {
    FIELD_ITEMS
    + [NEEDLE_ROW]
    + GradientRows(showGradient, showResolution)
    + SwitchRows(showGradient)
    + (if showSeverity then [SEVERITY_GRID] else [])
    + ACTION_ITEMS
  }

  // ---------------------------------------------------------------------
  // Labels

  const TEMPLATE_CUSTOM_LABELS: seq<string> :=
    ["entity", "gradient", "green", "max", "min", "needle", "severity", "show_severity",
     "red", "value", "valueText", "yellow"]

  const GAUGE_CUSTOM_LABELS: seq<string> :=
    ["entity", "gradient", "gradientResolution", "gradientResolutionOptions", "green", "max", "min",
     "needle", "severity", "show_severity", "red", "value", "valueText", "yellow"]

  /** A field's label, as the translation keys it is made of. */
  datatype Label =
    | EntityLabel(generic: string, extra: string)
    | CustomLabel(key: string)
    | GenericLabel(key: string)

  const GENERIC_PREFIX: string := "ui.panel.lovelace.editor.card.generic."

  /** `_computeLabel`. */
  function ComputeLabel(custom: seq<string>, name: string): Label
  {
    if name == "entity" then EntityLabel(GENERIC_PREFIX + "entity", "editor.card.template.entity_extra")
    else if name in custom then CustomLabel("editor.card." + name)
    else GenericLabel(GENERIC_PREFIX + name)
  }

  // ---------------------------------------------------------------------
  // Form data and the edited configuration

  /** The own fields of a configuration value, as a spread copies them. */
  function OwnFields(v: JsValue): Fields
  {
    match v
    case Obj(fs) => fs
    case Arr(items) => seq(|items|, i requires 0 <= i < |items| => Field(NatText(i), items[i]))
    case _ => []
  }

  /** `{show_severity: config.severity !== undefined, ...config}`. */
  function FormData(config: JsValue): Fields
  {
    Spread([Field("show_severity", Bool(Prop(config, "severity") != Undefined))], OwnFields(config))
  }

  /** `config.x || config.severity?.x || 0`. */
  function SeverityField(c: Fields, x: string): JsValue
  {
    Or(Get(c, x), Or(Prop(Get(c, "severity"), x), Number(Fin(0.0))))
  }

  function FoldedSeverity(c: Fields): JsValue
  {
    Obj([Field("green", SeverityField(c, "green")), Field("yellow", SeverityField(c, "yellow")),
         Field("red", SeverityField(c, "red"))])
  }

  const HELPER_KEYS: set<string> := {"show_severity", "green", "yellow", "red"}

  /** The four `delete`s of the helper keys. */
  function StripHelpers(c: Fields): (r: Fields)
    ensures Names(r) == Names(c) - HELPER_KEYS
    ensures forall k :: k !in HELPER_KEYS ==> Get(r, k) == Get(c, k)
  {
    var c1 := Delete(c, "show_severity");
    var c2 := Delete(c1, "green");
    var c3 := Delete(c2, "yellow");
    Delete(c3, "red")
  }

  /** Fold the form's thresholds into `severity` when the switch is on;
      else drop a truthy `severity`. */
  function SeverityStep(detail: Fields): Fields
  {
    if Truthy(Get(detail, "show_severity")) then Set(detail, "severity", FoldedSeverity(detail))
    else if Truthy(Get(detail, "severity")) then Delete(detail, "severity")
    else detail
  }

  /** The severity part of `_valueChanged`, shared by both editors. */
  function SeverityEdited(detail: Fields): Fields
  {
    StripHelpers(SeverityStep(detail))
  }

  /** The gradient part of the gauge card editor's `_valueChanged`. */
  function GradientEdited(c: Fields): Fields
  {
    if Truthy(Get(c, "gradient")) then
      Set(c, "gradientResolution", Or(Get(c, "gradientResolution"), Str(DEFAULT_GRADIENT_RESOLUTION)))
    else Delete(c, "gradientResolution")
  }

  /** The gauge card editor's `_valueChanged`. */
  function GaugeEdited(detail: Fields): Fields
  {
    GradientEdited(SeverityEdited(detail))
  }

  /** A form (schema and data) as an editor renders it. */
  datatype Form = Form(schema: seq<FormItem>, data: Fields)

  function TemplateForm(hasHass: bool, config: Option<JsValue>): Option<Form>
  {
    if !hasHass || config.None? then None
    else Some(Form(TemplateSchema(Prop(config.value, "severity") != Undefined), FormData(config.value)))
  }

  function GaugeForm(hasHass: bool, config: Option<JsValue>): Option<Form>
  {
    if !hasHass || config.None? then None
    else
      var c := config.value;
      Some(Form(GaugeSchema(Prop(c, "severity") != Undefined,
                            Truthy(Coalesce(Prop(c, "needle"), Bool(false))),
                            Truthy(Coalesce(Prop(c, "gradient"), Bool(false)))),
                FormData(c)))
  }

  // ---------------------------------------------------------------------
  // The editors

  /** The severity steps of `_valueChanged`, which both editors share:
      rebind to a copy with the folded thresholds, or delete `severity`,
      then delete the helper keys. */
  method EditSeverity(detail: Fields) returns (c: Fields)
    ensures c == SeverityEdited(detail)
  {
    c := detail;
    if Truthy(Get(c, "show_severity")) {
      c := Set(c, "severity", FoldedSeverity(c));
    } else if !Truthy(Get(c, "show_severity")) && Truthy(Get(c, "severity")) {
      c := Delete(c, "severity");
    }
    c := Delete(c, "show_severity");
    c := Delete(c, "green");
    c := Delete(c, "yellow");
    c := Delete(c, "red");
  }

  class TemplateCardEditor {
    const ext: External
    var hasHass: bool
    var config: Option<JsValue>

    constructor(ext: External)
      ensures this.ext == ext && !hasHass && config == None
    {
      this.ext := ext;
      hasHass := false;
      config := None;
    }

    /** setConfig: a configuration the schema rejects raises and is not
        kept. */
    method SetConfig(c: JsValue) returns (thrown: bool)
      modifies this
      ensures thrown <==> !ValidConfig(ext, c)
      ensures config == if thrown then old(config) else Some(c)
      ensures hasHass == old(hasHass)
    {
      thrown := !ValidConfig(ext, c);
      if !thrown {
        config := Some(c);
      }
    }

    method Render() returns (form: Option<Form>)
      ensures form == TemplateForm(hasHass, config)
      ensures form.Some? ==>
        (Shows(form.value.schema, "severity") <==> Prop(config.value, "severity") != Undefined)
    {
      if !hasHass || config.None? {
        return None;
      }
      var showSeverity := Prop(config.value, "severity") != Undefined;
      TemplateSchemaSeverity(showSeverity);
      form := Some(Form(TemplateSchema(showSeverity), FormData(config.value)));
    }

    /** `_valueChanged`: the configuration the editor emits for edited form
        data. */
    method ValueChanged(detail: Fields) returns (emitted: Fields)
      ensures emitted == SeverityEdited(detail)
      ensures forall k :: k in HELPER_KEYS ==> k !in Names(emitted)
      ensures Truthy(Get(detail, "show_severity")) ==> Get(emitted, "severity") == FoldedSeverity(detail)
      ensures !Truthy(Get(detail, "show_severity")) && Truthy(Get(detail, "severity")) ==>
        "severity" !in Names(emitted)
      ensures !Truthy(Get(detail, "show_severity")) && !Truthy(Get(detail, "severity")) ==>
        Get(emitted, "severity") == Get(detail, "severity")
      ensures forall k :: k !in HELPER_KEYS && k != "severity" ==> Get(emitted, k) == Get(detail, k)
    {
      emitted := EditSeverity(detail);
      SeverityEditedReads(detail);
    }
  }

  class GaugeCardProEditor {
    /** The gauge card's configuration schema. */
    const valid: JsValue -> bool
    var hasHass: bool
    var config: Option<JsValue>

    constructor(valid: JsValue -> bool)
      ensures this.valid == valid && !hasHass && config == None
    {
      this.valid := valid;
      hasHass := false;
      config := None;
    }

    method SetConfig(c: JsValue) returns (thrown: bool)
      modifies this
      ensures thrown <==> !valid(c)
      ensures config == if thrown then old(config) else Some(c)
      ensures hasHass == old(hasHass)
    {
      thrown := !valid(c);
      if !thrown {
        config := Some(c);
      }
    }

    method Render() returns (form: Option<Form>)
      ensures form == GaugeForm(hasHass, config)
      ensures form.Some? ==>
        var needle := Truthy(Coalesce(Prop(config.value, "needle"), Bool(false)));
        var gradient := Truthy(Coalesce(Prop(config.value, "gradient"), Bool(false)));
        && (Shows(form.value.schema, "severity") <==> Prop(config.value, "severity") != Undefined)
        && (Shows(form.value.schema, "gradient") <==> needle)
        && (Shows(form.value.schema, "show_severity") <==> needle)
        && (Shows(form.value.schema, "gradientResolution") <==> needle && gradient)
    {
      if !hasHass || config.None? {
        return None;
      }
      var c := config.value;
      var showSeverity := Prop(c, "severity") != Undefined;
      var showGradient := Truthy(Coalesce(Prop(c, "needle"), Bool(false)));
      var showResolution := Truthy(Coalesce(Prop(c, "gradient"), Bool(false)));
      form := Some(Form(GaugeSchema(showSeverity, showGradient, showResolution), FormData(c)));
      GaugeSchemaVisibility(showSeverity, showGradient, showResolution, "severity");
      GaugeSchemaVisibility(showSeverity, showGradient, showResolution, "gradient");
      GaugeSchemaVisibility(showSeverity, showGradient, showResolution, "show_severity");
      GaugeSchemaVisibility(showSeverity, showGradient, showResolution, "gradientResolution");
    }

    method ValueChanged(detail: Fields) returns (emitted: Fields)
      ensures emitted == GaugeEdited(detail)
      ensures forall k :: k in HELPER_KEYS ==> k !in Names(emitted)
      ensures Truthy(Get(detail, "show_severity")) ==> Get(emitted, "severity") == FoldedSeverity(detail)
      ensures !Truthy(Get(detail, "show_severity")) && Truthy(Get(detail, "severity")) ==>
        "severity" !in Names(emitted)
      ensures Truthy(Get(detail, "gradient")) ==>
        Get(emitted, "gradientResolution") == Or(Get(detail, "gradientResolution"), Str("medium"))
      ensures !Truthy(Get(detail, "gradient")) ==> "gradientResolution" !in Names(emitted)
      ensures forall k :: k !in HELPER_KEYS && k != "severity" && k != "gradientResolution" ==>
        Get(emitted, k) == Get(detail, k)
    {
      var c := EditSeverity(detail);
      if Truthy(Get(c, "gradient")) {
        c := Set(c, "gradientResolution", Or(Get(c, "gradientResolution"), Str("medium")));
      } else {
        c := Delete(c, "gradientResolution");
      }
      emitted := c;
      GaugeEditedReads(detail);
    }
  }

  // ---------------------------------------------------------------------
  // Properties

  /** What the severity part of `_valueChanged` leaves: no helper key; the
      folded thresholds when the switch is on; no severity when the switch
      is off and a severity was set; every other field as edited. */
  lemma SeverityEditedReads(detail: Fields)
    ensures var out := SeverityEdited(detail);
      && (forall k :: k in HELPER_KEYS ==> k !in Names(out))
      && (Truthy(Get(detail, "show_severity")) ==> Get(out, "severity") == FoldedSeverity(detail))
      && (!Truthy(Get(detail, "show_severity")) && Truthy(Get(detail, "severity")) ==> "severity" !in Names(out))
      && (!Truthy(Get(detail, "show_severity")) && !Truthy(Get(detail, "severity")) ==>
            Get(out, "severity") == Get(detail, "severity"))
      && (forall k :: k !in HELPER_KEYS && k != "severity" ==> Get(out, k) == Get(detail, k))
  {
    var step := SeverityStep(detail);
    assert forall k :: k != "severity" ==> Get(step, k) == Get(detail, k);
    assert "severity" !in HELPER_KEYS;
  }

  /** The gradient part: with the gradient on, the resolution or "medium";
      with it off, no resolution; every other field unchanged. */
  lemma GradientEditedReads(c: Fields)
    ensures var out := GradientEdited(c);
      && (Truthy(Get(c, "gradient")) ==> Get(out, "gradientResolution") == Or(Get(c, "gradientResolution"), Str("medium")))
      && (!Truthy(Get(c, "gradient")) ==> "gradientResolution" !in Names(out))
      && (forall k :: k != "gradientResolution" ==> Get(out, k) == Get(c, k))
      && Names(out) - {"gradientResolution"} == Names(c) - {"gradientResolution"}
  {
  }

  /** What the gauge editor emits, in terms of the edited form. */
  lemma GaugeEditedReads(detail: Fields)
    ensures var out := GaugeEdited(detail);
      && (forall k :: k in HELPER_KEYS ==> k !in Names(out))
      && (Truthy(Get(detail, "show_severity")) ==> Get(out, "severity") == FoldedSeverity(detail))
      && (!Truthy(Get(detail, "show_severity")) && Truthy(Get(detail, "severity")) ==> "severity" !in Names(out))
      && (Truthy(Get(detail, "gradient")) ==>
            Get(out, "gradientResolution") == Or(Get(detail, "gradientResolution"), Str("medium")))
      && (!Truthy(Get(detail, "gradient")) ==> "gradientResolution" !in Names(out))
      && (forall k :: k !in HELPER_KEYS && k != "severity" && k != "gradientResolution" ==>
            Get(out, k) == Get(detail, k))
  {
    GaugeEditedSeverity(detail);
    GaugeEditedGradient(detail);
    GaugeEditedOthers(detail);
  }

  lemma GaugeEditedSeverity(detail: Fields)
    ensures var out := GaugeEdited(detail);
      && (forall k :: k in HELPER_KEYS ==> k !in Names(out))
      && (Truthy(Get(detail, "show_severity")) ==> Get(out, "severity") == FoldedSeverity(detail))
      && (!Truthy(Get(detail, "show_severity")) && Truthy(Get(detail, "severity")) ==> "severity" !in Names(out))
  {
    var sev := SeverityEdited(detail);
    SeverityEditedReads(detail);
    GradientKeeps(sev, "severity");
    GradientKeeps(sev, "show_severity");
    GradientKeeps(sev, "green");
    GradientKeeps(sev, "yellow");
    GradientKeeps(sev, "red");
  }

  /** The gradient part leaves every field but the resolution alone. */
  lemma GradientKeeps(c: Fields, k: string)
    requires k != "gradientResolution"
    ensures Get(GradientEdited(c), k) == Get(c, k)
    ensures k in Names(GradientEdited(c)) <==> k in Names(c)
  {
  }

  /** The severity part leaves every field but the helpers and severity
      alone. */
  lemma SeverityKeeps(detail: Fields, k: string)
    requires k !in HELPER_KEYS && k != "severity"
    ensures Get(SeverityEdited(detail), k) == Get(detail, k)
  {
    SeverityEditedReads(detail);
  }

  /** With the gradient on, the resolution is the configured one or
      "medium"; with it off, there is none. */
  lemma GradientResolution(c: Fields)
    ensures Truthy(Get(c, "gradient")) ==>
      Get(GradientEdited(c), "gradientResolution") == Or(Get(c, "gradientResolution"), Str("medium"))
    ensures !Truthy(Get(c, "gradient")) ==> "gradientResolution" !in Names(GradientEdited(c))
  {
  }

  /** The gradient's keys are neither helper keys nor `severity`. */
  lemma GradientKeysApart()
    ensures "gradient" !in HELPER_KEYS && "gradient" != "severity"
    ensures "gradientResolution" !in HELPER_KEYS && "gradientResolution" != "severity"
  {
  }

  lemma GaugeEditedGradient(detail: Fields)
    ensures var out := GaugeEdited(detail);
      && (Truthy(Get(detail, "gradient")) ==>
            Get(out, "gradientResolution") == Or(Get(detail, "gradientResolution"), Str("medium")))
      && (!Truthy(Get(detail, "gradient")) ==> "gradientResolution" !in Names(out))
  {
    GradientKeysApart();
    SeverityKeeps(detail, "gradient");
    SeverityKeeps(detail, "gradientResolution");
    GradientResolution(SeverityEdited(detail));
  }

  lemma GaugeEditedOthers(detail: Fields)
    ensures var out := GaugeEdited(detail);
      forall k :: k !in HELPER_KEYS && k != "severity" && k != "gradientResolution" ==>
        Get(out, k) == Get(detail, k)
  {
    SeverityEditedReads(detail);
    GradientEditedReads(SeverityEdited(detail));
  }

  lemma ShowsConcat(a: seq<FormItem>, b: seq<FormItem>, name: string)
    ensures Shows(a + b, name) <==> Shows(a, name) || Shows(b, name)
  {
    if Shows(a + b, name) {
      var i :| 0 <= i < |a + b| && ItemShows((a + b)[i], name);
      if i >= |a| {
        assert ItemShows(b[i - |a|], name);
      }
    }
    if Shows(b, name) {
      var i :| 0 <= i < |b| && ItemShows(b[i], name);
      assert ItemShows((a + b)[|a| + i], name);
    }
    if Shows(a, name) {
      var i :| 0 <= i < |a| && ItemShows(a[i], name);
      assert ItemShows((a + b)[i], name);
    }
  }

  lemma ShowsOne(item: FormItem, name: string)
    ensures Shows([item], name) <==> ItemShows(item, name)
  {
    if ItemShows(item, name) {
      assert ItemShows([item][0], name);
    }
  }

  lemma FieldItemsShow(name: string)
    ensures Shows(FIELD_ITEMS, name) <==> name in {"entity", "value", "valueText", "name", "min", "max"}
  {
    var f := FIELD_ITEMS;
    if name == "entity" { assert ItemShows(f[0], name); }
    if name == "value" { assert ItemShows(f[1], name); }
    if name == "valueText" { assert ItemShows(f[2], name); }
    if name == "name" { assert ItemShows(f[3], name); }
    if name == "min" { assert ItemShows(f[4], name); }
    if name == "max" { assert ItemShows(f[5], name); }
  }

  lemma ActionItemsShow(name: string)
    ensures Shows(ACTION_ITEMS, name) <==> name in {"tap_action", "hold_action", "double_tap_action"}
  {
    var a := ACTION_ITEMS;
    if name == "tap_action" { assert ItemShows(a[0], name); }
    if name == "hold_action" { assert ItemShows(a[1], name); }
    if name == "double_tap_action" { assert ItemShows(a[2], name); }
  }

  /** A grid of inputs shows its name and its inputs' names. */
  lemma GridShows(n: string, items: seq<FormItem>, name: string, j: nat)
    requires j < |items| && items[j].Input? && items[j].name == name
    ensures ItemShows(Grid(n, items), name)
  {
  }

  lemma SeverityGridShows(name: string)
    ensures Shows([SEVERITY_GRID], name) <==> name in {"severity", "green", "yellow", "red"}
  {
    ShowsOne(SEVERITY_GRID, name);
    var g := SEVERITY_GRID.schema;
    if name == "green" { GridShows("severity", g, name, 0); }
    if name == "yellow" { GridShows("severity", g, name, 1); }
    if name == "red" { GridShows("severity", g, name, 2); }
  }

  /** The template editor shows the severity grid and its three fields
      exactly when asked to, and every other field always. */
  lemma TemplateSchemaSeverity(showSeverity: bool)
    ensures forall x :: x in {"severity", "green", "yellow", "red"} ==>
      (Shows(TemplateSchema(showSeverity), x) <==> showSeverity)
    ensures forall x :: x in {"entity", "value", "valueText", "name", "min", "max", "needle", "show_severity",
                             "gradient", "tap_action", "hold_action", "double_tap_action"} ==>
      Shows(TemplateSchema(showSeverity), x)
  {
    var flags := Grid("", [Input("needle", BooleanSelector), Input("show_severity", BooleanSelector),
                           Input("gradient", BooleanSelector)]);
    var sev: seq<FormItem> := if showSeverity then [SEVERITY_GRID] else [];
    forall x | x in {"severity", "green", "yellow", "red", "entity", "value", "valueText", "name", "min", "max",
                     "needle", "show_severity", "gradient", "tap_action", "hold_action", "double_tap_action"}
      ensures Shows(TemplateSchema(showSeverity), x) <==>
        (showSeverity || x !in {"severity", "green", "yellow", "red"})
    {
      ShowsConcat(FIELD_ITEMS + [flags] + sev, ACTION_ITEMS, x);
      ShowsConcat(FIELD_ITEMS + [flags], sev, x);
      ShowsConcat(FIELD_ITEMS, [flags], x);
      ShowsOne(flags, x);
      FieldItemsShow(x);
      ActionItemsShow(x);
      if showSeverity {
        SeverityGridShows(x);
      }
      if x == "needle" { GridShows("", flags.schema, x, 0); }
      if x == "show_severity" { GridShows("", flags.schema, x, 1); }
      if x == "gradient" { GridShows("", flags.schema, x, 2); }
    }
  }

  const NEEDLE_ROW: FormItem := Grid("", [Input("needle", BooleanSelector), Spacer])

  /** The gauge editor's gradient row, or a placeholder. */
  function GradientRows(showGradient: bool, showResolution: bool): seq<FormItem>
  {
    if showGradient then
      [Grid("", [Input("gradient", BooleanSelector)]
                + (if showResolution then [Input("gradientResolution", SelectSelector(RESOLUTION_OPTIONS))]
                   else [Spacer]))]
    else [Spacer]
  }

  /** The gauge editor's severity switch row, or a placeholder. */
  function SwitchRows(showGradient: bool): seq<FormItem>
  {
    if showGradient then [Grid("", [Input("show_severity", BooleanSelector), Spacer])] else [Spacer]
  }

  lemma GaugeSchemaParts(showSeverity: bool, showGradient: bool, showResolution: bool)
    ensures GaugeSchema(showSeverity, showGradient, showResolution)
         == FIELD_ITEMS + [NEEDLE_ROW] + GradientRows(showGradient, showResolution) + SwitchRows(showGradient)
            + (if showSeverity then [SEVERITY_GRID] else []) + ACTION_ITEMS
  {
  }

  /** A grid of two entries shows its name and the names of its inputs. */
  lemma PairShows(n: string, a: FormItem, b: FormItem, name: string)
    ensures ItemShows(Grid(n, [a, b]), name) <==>
      (n != "" && n == name) || (a.Input? && a.name == name) || (b.Input? && b.name == name)
  {
    if ItemShows(Grid(n, [a, b]), name) && !(n != "" && n == name) {
      var j :| 0 <= j < 2 && [a, b][j].Input? && [a, b][j].name == name;
      assert j == 0 || j == 1;
    }
    if a.Input? && a.name == name {
      GridShows(n, [a, b], name, 0);
    }
    if b.Input? && b.name == name {
      GridShows(n, [a, b], name, 1);
    }
  }

  lemma GradientRowsShow(showGradient: bool, showResolution: bool, x: string)
    ensures Shows(GradientRows(showGradient, showResolution), x) <==>
      showGradient && (x == "gradient" || (showResolution && x == "gradientResolution"))
  {
    var g := GradientRows(showGradient, showResolution);
    ShowsOne(g[0], x);
    if showGradient {
      var sch := g[0].schema;
      assert sch == [sch[0], sch[1]];
      PairShows("", sch[0], sch[1], x);
    }
  }

  lemma SwitchRowsShow(showGradient: bool, x: string)
    ensures Shows(SwitchRows(showGradient), x) <==> showGradient && x == "show_severity"
  {
    var w := SwitchRows(showGradient);
    ShowsOne(w[0], x);
    if showGradient {
      PairShows("", Input("show_severity", BooleanSelector), Spacer, x);
    }
  }

  lemma HeadShows(x: string)
    ensures Shows(FIELD_ITEMS + [NEEDLE_ROW], x) <==> x in {"entity", "value", "valueText", "name", "min", "max", "needle"}
  {
    ShowsConcat(FIELD_ITEMS, [NEEDLE_ROW], x);
    FieldItemsShow(x);
    ShowsOne(NEEDLE_ROW, x);
    PairShows("", Input("needle", BooleanSelector), Spacer, x);
  }

  /** The gauge editor shows the gradient toggle and the severity switch
      only in needle mode, the resolution select only when the gradient is
      also on, and the severity grid exactly when asked to. */
  lemma GaugeSchemaVisibility(showSeverity: bool, showGradient: bool, showResolution: bool, x: string)
    requires x in {"gradient", "show_severity", "gradientResolution", "severity", "needle", "value"}
    ensures var s := GaugeSchema(showSeverity, showGradient, showResolution);
      && (x == "gradient" ==> (Shows(s, x) <==> showGradient))
      && (x == "show_severity" ==> (Shows(s, x) <==> showGradient))
      && (x == "gradientResolution" ==> (Shows(s, x) <==> showGradient && showResolution))
      && (x == "severity" ==> (Shows(s, x) <==> showSeverity))
      && (x == "needle" || x == "value" ==> Shows(s, x))
  {
    var head := FIELD_ITEMS + [NEEDLE_ROW];
    var g := GradientRows(showGradient, showResolution);
    var w := SwitchRows(showGradient);
    var sev: seq<FormItem> := if showSeverity then [SEVERITY_GRID] else [];
    GaugeSchemaParts(showSeverity, showGradient, showResolution);
    ShowsConcat(head + g + w + sev, ACTION_ITEMS, x);
    ShowsConcat(head + g + w, sev, x);
    ShowsConcat(head + g, w, x);
    ShowsConcat(head, g, x);
    HeadShows(x);
    GradientRowsShow(showGradient, showResolution, x);
    SwitchRowsShow(showGradient, x);
    ActionItemsShow(x);
    if showSeverity {
      SeverityGridShows(x);
    }
  }

  /** The resolution select offers exactly the resolutions the card knows. */
  lemma ResolutionOptionsKnown()
    ensures forall o :: o in RESOLUTION_OPTIONS <==> ResolutionOf(o).Some?
    ensures forall o :: o in RESOLUTION_OPTIONS <==> ResolutionOk(Str(o))
  {
  }

  /** Every field the template editor shows, other than `name` and the
      actions, carries the card's own label; `name` and the actions carry
      the host's generic one. */
  lemma TemplateLabels(name: string)
    requires Shows(TemplateSchema(true), name)
    ensures name == "entity" ==> ComputeLabel(TEMPLATE_CUSTOM_LABELS, name).EntityLabel?
    ensures name in {"value", "valueText", "min", "max", "needle", "show_severity", "gradient", "severity",
                     "green", "yellow", "red"} ==>
      ComputeLabel(TEMPLATE_CUSTOM_LABELS, name) == CustomLabel("editor.card." + name)
    ensures name in {"name", "tap_action", "hold_action", "double_tap_action"} ==>
      ComputeLabel(TEMPLATE_CUSTOM_LABELS, name) == GenericLabel(GENERIC_PREFIX + name)
  {
  }

  /** The form's switch reads whether the configuration has a severity. */
  lemma FormDataSwitch(fs: Fields)
    requires "show_severity" !in Names(fs)
    ensures Get(FormData(Obj(fs)), "show_severity") == Bool(Get(fs, "severity") != Undefined)
    ensures forall k :: k != "show_severity" ==> Get(FormData(Obj(fs)), k) == Get(fs, k)
  {
    var d := [Field("show_severity", Bool(Get(fs, "severity") != Undefined))];
    assert Names(d) == {"show_severity"} by {
      NamesSnoc([], d[0]);
      assert [] + [d[0]] == d;
    }
  }

  /** A configuration an editor can show without loss: no helper key at
      the top level, and a severity (if any) of three numbers. */
  predicate FormReady(fs: Fields)
  {
    && (forall k :: k in HELPER_KEYS ==> k !in Names(fs))
    && (Get(fs, "severity") == Undefined || SeverityOk(Get(fs, "severity")))
  }

  /** The folded severity reads each threshold from its own field. */
  lemma FoldedReads(c: Fields)
    ensures Prop(FoldedSeverity(c), "green") == SeverityField(c, "green")
    ensures Prop(FoldedSeverity(c), "yellow") == SeverityField(c, "yellow")
    ensures Prop(FoldedSeverity(c), "red") == SeverityField(c, "red")
  {
    var g, y, r := Field("green", SeverityField(c, "green")), Field("yellow", SeverityField(c, "yellow")),
                   Field("red", SeverityField(c, "red"));
    assert [g, y, r] == [g, y] + [r];
    assert [g, y] == [g] + [y];
    assert [g] == [] + [g];
    GetSnoc([g, y], r);
    GetSnoc([g], y);
    GetSnoc([], g);
  }

  /** A threshold that is a number, 0 included, survives the fold when
      the top-level field is unset. */
  lemma FoldKeepsNumber(data: Fields, x: string)
    requires Get(data, x) == Undefined
    requires IsNumber(Prop(Get(data, "severity"), x))
    ensures SeverityField(data, x) == Prop(Get(data, "severity"), x)
  {
  }

  /** Opening the template editor on a form-ready configuration and
      emitting the form unchanged gives back the configuration: every field
      reads the same, and a severity reads the same three numbers. */
  lemma TemplateEditRoundTrip(fs: Fields)
    requires FormReady(fs)
    ensures var out := SeverityEdited(FormData(Obj(fs)));
      && (forall k :: k != "severity" ==> Get(out, k) == Get(fs, k))
      && (Get(fs, "severity") == Undefined ==> Get(out, "severity") == Undefined)
      && (Get(fs, "severity") != Undefined ==>
            && Prop(Get(out, "severity"), "green") == Prop(Get(fs, "severity"), "green")
            && Prop(Get(out, "severity"), "yellow") == Prop(Get(fs, "severity"), "yellow")
            && Prop(Get(out, "severity"), "red") == Prop(Get(fs, "severity"), "red"))
  {
    var data := FormData(Obj(fs));
    FormDataSwitch(fs);
    SeverityEditedReads(data);
    var out := SeverityEdited(data);
    forall k | k in HELPER_KEYS ensures Get(out, k) == Get(fs, k) {
      assert k !in Names(out) && k !in Names(fs);
    }
    if Get(fs, "severity") != Undefined {
      assert Truthy(Get(data, "show_severity"));
      FoldedReads(data);
      FoldKeepsNumber(data, "green");
      FoldKeepsNumber(data, "yellow");
      FoldKeepsNumber(data, "red");
    }
  }

  /** No helper key is a configuration option of the card. */
  lemma HelperKeysNotOwn()
    ensures forall k :: k in HELPER_KEYS ==> k !in OWN_KEYS
  {
  }

  /** Every valid template configuration whose base schema has no helper
      key can be shown without loss. */
  lemma ValidConfigFormReady(ext: External, fs: Fields)
    requires ValidConfig(ext, Obj(fs))
    requires forall k :: k in HELPER_KEYS ==> k !in ext.baseKeys
    ensures FormReady(fs)
  {
    HelperKeysNotOwn();
  }

  /** The gauge editor gives back the configuration likewise, except that
      with the gradient on a missing resolution becomes "medium", and with
      it off the resolution is dropped. */
  lemma GaugeEditRoundTrip(fs: Fields)
    requires FormReady(fs)
    ensures var out := GaugeEdited(FormData(Obj(fs)));
      && (forall k :: k != "severity" && k != "gradientResolution" ==> Get(out, k) == Get(fs, k))
      && (Truthy(Get(fs, "gradient")) ==>
            Get(out, "gradientResolution") == Or(Get(fs, "gradientResolution"), Str("medium")))
      && (!Truthy(Get(fs, "gradient")) ==> Get(out, "gradientResolution") == Undefined)
      && (Get(fs, "severity") != Undefined ==>
            && Prop(Get(out, "severity"), "green") == Prop(Get(fs, "severity"), "green")
            && Prop(Get(out, "severity"), "yellow") == Prop(Get(fs, "severity"), "yellow")
            && Prop(Get(out, "severity"), "red") == Prop(Get(fs, "severity"), "red"))
  {
    var sev := SeverityEdited(FormData(Obj(fs)));
    GradientKeysApart();
    TemplateEditRoundTrip(fs);
    GradientResolution(sev);
    GradientKeeps(sev, "severity");
    forall k | k != "severity" && k != "gradientResolution"
      ensures Get(GradientEdited(sev), k) == Get(fs, k)
    {
      GradientKeeps(sev, k);
    }
  }
}
