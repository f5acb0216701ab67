/** The element editor that hosts a card's visual editor: it keeps the
    configuration, its YAML text, the errors and warnings, whether the
    visual (GUI) mode is on and available, and the loaded visual editor.
    YAML parsing and printing, the visual editor's own check and the
    translated messages are the host's; they are parameters here.
    `_updateConfigElement` stops at its one `await`: the part before it is
    `UpdateStart`, the part after it is `UpdateResume`. */
module ElementEditor {
  import opened Js

  /** What the YAML loader gives back. */
  datatype Loaded = Parsed(value: JsValue) | ParseError(message: string)

  /** The visual editor's rejection of a configuration, as the host's
      structure-error handler splits it. */
  datatype Rejection = Rejection(warnings: Option<seq<string>>, errors: Option<seq<string>>)

  /** The message of the rejection error. */
  const NOT_SUPPORTED: string := "Config is not supported"

  /** The warnings a rejection leaves: its own, or its message. */
  function RejectionWarnings(r: Rejection): seq<string>
  {
    if r.warnings.Some? then r.warnings.value else [NOT_SUPPORTED]
  }

  datatype EditorEvent =
    | ConfigChanged(config: JsValue, error: Option<string>, guiModeAvailable: bool)
    | GuiModeChanged(guiMode: bool, guiModeAvailable: bool)

  /** The type of the configuration (`value ? value.type : undefined`). */
  function TypeOf(config: JsValue): JsValue
  {
    if Truthy(config) then Prop(config, "type") else Undefined
  }

  /** An event that reports the visual mode as available reports no
      error. */
  predicate EventConsistent(e: EditorEvent)
  {
    e.ConfigChanged? && e.guiModeAvailable ==> e.error.None? || e.error == Some("")
  }

  class Editor {
    /** YAML printing and loading. */
    const dump: JsValue -> string
    const load: string -> Loaded
    var yaml: Option<string>
    var config: JsValue
    var hasElement: bool
    var elementType: JsValue
    var guiMode: bool
    var errors: Option<seq<string>>
    var warnings: Option<seq<string>>
    var guiSupported: Option<bool>
    var loading: bool
    /** The events fired so far. */
    var events: seq<EditorEvent>

    /** Loading leaves no visual editor in place; a visual editor in place
        is supported; every event fired is consistent. */
    predicate Valid()
      reads this
    {
      && (loading ==> !hasElement && guiSupported.None?)
      && (hasElement ==> guiSupported == Some(true))
      && (forall i :: 0 <= i < |events| ==> EventConsistent(events[i]))
    }

    predicate HasWarning()
      reads this
    {
      warnings.Some? && |warnings.value| > 0
    }

    predicate HasError()
      reads this
    {
      errors.Some? && |errors.value| > 0
    }

    /** The availability every event reports. */
    predicate GuiModeAvailable()
      reads this
    {
      !(HasWarning() || HasError() || guiSupported == Some(false))
    }

    constructor(dump: JsValue -> string, load: string -> Loaded)
      ensures Valid()
      ensures this.dump == dump && this.load == load
      ensures yaml.None? && config == Undefined && !hasElement && elementType == Undefined
      ensures guiMode && errors.None? && warnings.None? && guiSupported.None? && !loading && events == []
    {
      this.dump := dump;
      this.load := load;
      yaml := None;
      config := Undefined;
      hasElement := false;
      elementType := Undefined;
      guiMode := true;
      errors := None;
      warnings := None;
      guiSupported := None;
      loading := false;
      events := [];
    }

    /** The `yaml` getter: an empty cache is filled with the printed
        configuration. */
    method GetYaml() returns (text: string)
      modifies this
      ensures old(yaml).Some? && old(yaml).value != "" ==> yaml == old(yaml) && text == old(yaml).value
      ensures !(old(yaml).Some? && old(yaml).value != "") ==> yaml == Some(dump(config)) && text == dump(config)
      ensures config == old(config) && hasElement == old(hasElement) && elementType == old(elementType)
      ensures guiMode == old(guiMode) && errors == old(errors) && warnings == old(warnings)
      ensures guiSupported == old(guiSupported) && loading == old(loading) && events == old(events)
    {
      if yaml.None? || yaml.value == "" {
        yaml := Some(dump(config));
      }
      text := yaml.value;
    }

    /** The `GUImode` setter: records the mode and announces it. */
    method SetGuiMode(mode: bool)
      requires Valid()
      modifies this
      ensures Valid()
      ensures guiMode == mode
      ensures events == old(events) + [GuiModeChanged(mode, old(GuiModeAvailable()))]
      ensures yaml == old(yaml) && config == old(config) && hasElement == old(hasElement)
      ensures elementType == old(elementType) && errors == old(errors) && warnings == old(warnings)
      ensures guiSupported == old(guiSupported) && loading == old(loading)
    {
      var available := GuiModeAvailable();
      guiMode := mode;
      events := events + [GuiModeChanged(mode, available)];
    }

    method ToggleMode()
      requires Valid()
      modifies this
      ensures Valid()
      ensures guiMode == !old(guiMode)
      ensures events == old(events) + [GuiModeChanged(!old(guiMode), old(GuiModeAvailable()))]
      ensures yaml == old(yaml) && config == old(config) && hasElement == old(hasElement)
      ensures elementType == old(elementType) && errors == old(errors) && warnings == old(warnings)
      ensures guiSupported == old(guiSupported) && loading == old(loading)
    {
      SetGuiMode(!guiMode);
    }

    /** The tail of `_updateConfigElement`: hand the configuration to the
        visual editor (which may reject it), or leave visual mode when
        there is none; loading is over either way. */
    method ApplyToElement(rejection: Option<Rejection>)
      requires Valid()
      modifies this
      ensures Valid()
      ensures !loading
      ensures old(hasElement) && rejection.Some? ==>
        && warnings == Some(RejectionWarnings(rejection.value))
        && errors == rejection.value.errors
        && !guiMode
      ensures old(hasElement) && rejection.None? ==>
        warnings == old(warnings) && errors == old(errors) && guiMode == old(guiMode) && events == old(events)
      ensures !old(hasElement) ==> warnings == old(warnings) && errors == old(errors) && !guiMode
      ensures |old(events)| <= |events| <= |old(events)| + 1 && events[..|old(events)|] == old(events)
      ensures yaml == old(yaml) && config == old(config) && hasElement == old(hasElement)
      ensures elementType == old(elementType) && guiSupported == old(guiSupported)
    {
      if hasElement {
        if rejection.Some? {
          warnings := Some(RejectionWarnings(rejection.value));
          errors := rejection.value.errors;
          SetGuiMode(false);
        }
      } else {
        SetGuiMode(false);
      }
      loading := false;
    }

    /** `_updateConfigElement` up to its `await`. Returns whether it is now
        waiting for the visual editor to load. */
    method UpdateStart(noTypeMessage: string, rejection: Option<Rejection>) returns (awaiting: bool)
      requires Valid()
      modifies this
      ensures Valid()
      ensures awaiting <==> Truthy(old(config)) && old(elementType) != TypeOf(old(config)) && Truthy(TypeOf(old(config)))
      ensures !Truthy(old(config)) ==> !awaiting && errors == old(errors) && warnings == old(warnings)
                                       && loading == old(loading) && events == old(events)
      ensures Truthy(old(config)) && old(elementType) != TypeOf(old(config)) ==>
        !hasElement && guiSupported.None?
      ensures awaiting ==>
        && elementType == TypeOf(old(config)) && loading
        && errors.None? && warnings.None? && guiMode == old(guiMode) && events == old(events)
      ensures Truthy(old(config)) && old(elementType) != TypeOf(old(config)) && !Truthy(TypeOf(old(config))) ==>
        errors == Some([noTypeMessage]) && warnings.None? && !guiMode && !loading
      ensures Truthy(old(config)) && old(elementType) == TypeOf(old(config)) ==>
        && !awaiting && !loading
        && (old(hasElement) && rejection.None? ==> errors.None? && warnings.None? && guiMode == old(guiMode))
        && (old(hasElement) && rejection.Some? ==>
              && warnings == Some(RejectionWarnings(rejection.value))
              && errors == rejection.value.errors && !guiMode)
        && (!old(hasElement) ==> errors.None? && warnings.None? && !guiMode)
      ensures yaml == old(yaml) && config == old(config)
      ensures |old(events)| <= |events| && events[..|old(events)|] == old(events)
    {
      awaiting := false;
      if !Truthy(config) {
        return;
      }
      errors := None;
      warnings := None;
      var t := TypeOf(config);
      if elementType != t {
        guiSupported := None;
        hasElement := false;
        if !Truthy(t) {
          errors := Some([noTypeMessage]);
          SetGuiMode(false);
          loading := false;
          return;
        }
        elementType := t;
        loading := true;
        awaiting := true;
        return;
      }
      ApplyToElement(rejection);
    }

    /** `_updateConfigElement` after the visual editor has loaded (or has
        turned out not to exist). */
    method UpdateResume(loaded: bool, rejection: Option<Rejection>)
      requires Valid()
      modifies this
      ensures Valid()
      ensures hasElement == (old(hasElement) || loaded)
      ensures loaded ==> guiSupported == Some(true)
      ensures !loaded ==> guiSupported == old(guiSupported)
      ensures !loading
      ensures !hasElement ==> !guiMode
      ensures hasElement && rejection.Some? ==>
        && !guiMode && errors == rejection.value.errors
        && warnings == Some(RejectionWarnings(rejection.value))
      ensures hasElement && rejection.None? ==>
        errors == old(errors) && warnings == old(warnings) && guiMode == old(guiMode)
      ensures !hasElement ==> errors == old(errors) && warnings == old(warnings)
      ensures yaml == old(yaml) && config == old(config) && elementType == old(elementType)
      ensures |old(events)| <= |events| && events[..|old(events)|] == old(events)
    {
      if loaded {
        hasElement := true;
        guiSupported := Some(true);
        loading := false;
      }
      ApplyToElement(rejection);
    }

    /** The `config-changed` event of `_setConfig`. */
    method FireConfigChanged()
      requires Valid()
      modifies this
      ensures Valid()
      ensures events == old(events) +
        [ConfigChanged(config, if errors.Some? then Some(Join(errors.value, ", ")) else None, GuiModeAvailable())]
      ensures yaml == old(yaml) && config == old(config) && hasElement == old(hasElement)
      ensures elementType == old(elementType) && errors == old(errors) && warnings == old(warnings)
      ensures guiSupported == old(guiSupported) && loading == old(loading) && guiMode == old(guiMode)
    {
      var error := if errors.Some? then Some(Join(errors.value, ", ")) else None;
      if GuiModeAvailable() {
        assert errors.None? || errors.value == [];
      }
      events := events + [ConfigChanged(config, error, GuiModeAvailable())];
    }

    /** `_setConfig`: the visual editor is updated only when there are no
        errors; the change is announced either way. */
    method SetConfig(noTypeMessage: string, rejection: Option<Rejection>) returns (awaiting: bool)
      requires Valid()
      modifies this
      ensures Valid()
      ensures |old(events)| < |events| && events[..|old(events)|] == old(events)
      ensures events[|events| - 1] ==
        ConfigChanged(config, if errors.Some? then Some(Join(errors.value, ", ")) else None, GuiModeAvailable())
      ensures old(errors).Some? ==>
        && !awaiting && errors == old(errors) && warnings == old(warnings) && guiMode == old(guiMode)
        && hasElement == old(hasElement) && elementType == old(elementType) && loading == old(loading)
        && events == old(events) + [ConfigChanged(config, Some(Join(errors.value, ", ")), GuiModeAvailable())]
      ensures old(errors).None? ==>
        awaiting == (Truthy(config) && old(elementType) != TypeOf(config) && Truthy(TypeOf(config)))
      ensures (old(errors).None? && Truthy(config) && old(elementType) == TypeOf(config) && old(hasElement)
               && rejection.None?) ==> errors.None? && warnings.None? && guiMode == old(guiMode)
      ensures yaml == old(yaml) && config == old(config)
    {
      awaiting := false;
      if errors.None? {
        awaiting := UpdateStart(noTypeMessage, rejection);
      }
      FireConfigChanged();
    }

    /** The `value` setter: a configuration deep-equal to the current one
        changes nothing; any other replaces it and drops the cached YAML
        and the errors before `_setConfig`. */
    method SetValue(c: JsValue, noTypeMessage: string, rejection: Option<Rejection>) returns (awaiting: bool)
      requires Valid()
      modifies this
      ensures Valid()
      ensures Truthy(old(config)) && c == old(config) ==>
        && !awaiting && yaml == old(yaml) && config == old(config) && errors == old(errors)
        && warnings == old(warnings) && guiMode == old(guiMode) && events == old(events)
        && hasElement == old(hasElement) && loading == old(loading)
      ensures !(Truthy(old(config)) && c == old(config)) ==>
        && config == c && yaml.None? && |events| > 0
        && events[|events| - 1] == ConfigChanged(c, if errors.Some? then Some(Join(errors.value, ", ")) else None,
                                                 GuiModeAvailable())
        && (Truthy(c) && TypeOf(c) == old(elementType) && old(hasElement) && rejection.None? ==>
              errors.None? && warnings.None?)
    {
      awaiting := false;
      if Truthy(config) && c == config {
        return;
      }
      config := c;
      yaml := None;
      errors := None;
      awaiting := SetConfig(noTypeMessage, rejection);
    }

    /** The `yaml` setter: the text is loaded (an empty text loads the
        printed configuration); a parse error is recorded as the only error
        and keeps the configuration, so the visual editor is not updated. */
    method SetYaml(text: string, noTypeMessage: string, rejection: Option<Rejection>) returns (awaiting: bool)
      requires Valid()
      modifies this
      ensures Valid()
      ensures var source := if text != "" then text else dump(old(config));
        && (load(source).ParseError? ==>
              && config == old(config) && errors == Some([load(source).message]) && !awaiting && |events| > 0
              && events[|events| - 1] == ConfigChanged(old(config), Some(load(source).message), false))
        && (load(source).Parsed? ==> config == load(source).value)
      ensures yaml == Some(if text != "" then text else dump(old(config)))
    {
      yaml := Some(text);
      var source := GetYaml();
      var loaded := load(source);
      match loaded {
        case Parsed(v) =>
          config := v;
          errors := None;
        case ParseError(msg) =>
          errors := Some([msg]);
      }
      awaiting := SetConfig(noTypeMessage, rejection);
      if loaded.ParseError? {
        assert Join([loaded.message], ", ") == loaded.message;
      }
    }

    /** The code editor's change handler: only a text that differs from the
        current YAML is set. */
    method HandleYamlChanged(newYaml: string, noTypeMessage: string, rejection: Option<Rejection>)
      returns (awaiting: bool)
      requires Valid()
      modifies this
      ensures Valid()
      ensures var current := if old(yaml).Some? && old(yaml).value != "" then old(yaml).value else dump(old(config));
        && (newYaml == current ==>
              !awaiting && yaml == Some(current) && config == old(config) && errors == old(errors)
              && events == old(events))
        && (newYaml != current && newYaml != "" ==> yaml == Some(newYaml))
    {
      var current := GetYaml();
      awaiting := false;
      if newYaml != current {
        awaiting := SetYaml(newYaml, noTypeMessage, rejection);
      }
    }
  }
}
