/** The base card the template card's family derives from: it stores its
    configuration with both actions defaulting to `more-info`, looks up the
    configured entity's state, and reads the theme's dark mode. */
module BaseCard {
  import opened Js
  import CardState

  /** The parts of the Home Assistant connection the base card reads. */
  datatype Hass = Hass(states: map<string, JsValue>, themes: JsValue)

  /** Both actions open the more-info dialog unless configured. */
  const BASE_ACTIONS: Fields :=
    [Field("tap_action", Obj([Field("action", Str("more-info"))])),
     Field("hold_action", Obj([Field("action", Str("more-info"))]))]

  /** `getCardSize` and `hasControls` of the base card. */
  const BASE_CARD_SIZE: nat := 1
  const BASE_HAS_CONTROLS: bool := false

  /** `{ tap_action: …, hold_action: …, ...config }`. */
  function WithDefaults(c: Fields): (r: Fields)
    ensures Names(r) == Names(c) + {"tap_action", "hold_action"}
  {
    NamesSnoc([BASE_ACTIONS[0]], BASE_ACTIONS[1]);
    assert [BASE_ACTIONS[0]] + [BASE_ACTIONS[1]] == BASE_ACTIONS;
    Spread(BASE_ACTIONS, c)
  }

  /** `computeDarkMode`: false without a connection, otherwise the theme's
      flag as it is; reading it from null or undefined themes throws. */
  function ComputeDarkMode(hass: Option<Hass>): (r: Outcome<JsValue>)
    ensures hass.None? ==> r == Ok(Bool(false))
    ensures hass.Some? ==> (r.TypeError? <==> hass.value.themes.Null? || hass.value.themes.Undefined?)
    ensures hass.Some? && hass.value.themes.Obj? ==> r == Ok(Get(hass.value.themes.fields, "darkMode"))
    ensures hass.Some? && r.Ok? && !hass.value.themes.Obj? ==> r == Ok(Undefined)
  {
    if hass.None? then Ok(Bool(false))
    else if hass.value.themes.Null? || hass.value.themes.Undefined? then TypeError
    else Ok(Prop(hass.value.themes, "darkMode"))
  }

  /** `hass.states[id]`: an unknown id (and a non-string one, which no
      state is stored under) reads as undefined. */
  function StateOf(h: Hass, id: JsValue): JsValue
  {
    if id.Str? && id.s in h.states then h.states[id.s] else Undefined
  }

  class Card {
    var config: Option<Fields>

    constructor()
      ensures config.None?
    {
      config := None;
    }

    method SetConfig(c: Fields)
      modifies this
      ensures config == Some(WithDefaults(c))
    {
      config := Some(WithDefaults(c));
    }

    /** `_stateObj`: the configured entity's state, or undefined when there
        is no configuration, no connection or no entity. */
    function StateObj(hass: Option<Hass>): (r: JsValue)
      reads this
      ensures config.None? || hass.None? ==> r == Undefined
      ensures config.Some? && !Truthy(Get(config.value, "entity")) ==> r == Undefined
      ensures r != Undefined ==>
        var id := Get(config.value, "entity");
        id.Str? && id.s in hass.value.states && r == hass.value.states[id.s]
      ensures config.Some? && hass.Some? && Get(config.value, "entity").Str? ==>
        var id := Get(config.value, "entity").s;
        id != "" && id in hass.value.states ==> r == hass.value.states[id]
    {
      if config.None? || hass.None? || !Truthy(Get(config.value, "entity")) then Undefined
      else StateOf(hass.value, Get(config.value, "entity"))
    }
  }

  /** Every field the caller gives is stored as given; the two actions
      fall back to more-info. */
  lemma DefaultsAndOverrides(c: Fields)
    ensures forall k :: k in Names(c) ==> Get(WithDefaults(c), k) == Get(c, k)
    ensures "tap_action" !in Names(c) ==>
      Get(WithDefaults(c), "tap_action") == Obj([Field("action", Str("more-info"))])
    ensures "hold_action" !in Names(c) ==>
      Get(WithDefaults(c), "hold_action") == Obj([Field("action", Str("more-info"))])
  {
    NamesSnoc([BASE_ACTIONS[0]], BASE_ACTIONS[1]);
    assert [BASE_ACTIONS[0]] + [BASE_ACTIONS[1]] == BASE_ACTIONS;
    assert Names([BASE_ACTIONS[0]]) == {"tap_action"};
    GetSnoc([BASE_ACTIONS[0]], BASE_ACTIONS[1]);
    assert Get(BASE_ACTIONS, "tap_action") == Get([BASE_ACTIONS[0]], "tap_action");
  }

  /** The template card stores its configuration like the base card except
      for one default: without a configured tap action it toggles where the
      base card opens more-info. */
  lemma TemplateCardDefaultsDiffer(c: Fields)
    ensures forall k :: k != "tap_action" ==> Get(CardState.StoredConfig(c), k) == Get(WithDefaults(c), k)
    ensures "tap_action" in Names(c) ==> Get(CardState.StoredConfig(c), "tap_action") == Get(WithDefaults(c), "tap_action")
    ensures "tap_action" !in Names(c) ==> Get(CardState.StoredConfig(c), "tap_action") != Get(WithDefaults(c), "tap_action")
  {
    DefaultsAndOverrides(c);
    CardState.StoredConfigDefaults(c);
    forall k | k != "tap_action"
      ensures Get(CardState.StoredConfig(c), k) == Get(WithDefaults(c), k)
    {
      if k != "hold_action" {
        CardState.StoredField(c, k);
        BaseField(c, k);
      }
    }
  }

  /** Every field other than the two actions is stored as given. */
  lemma BaseField(c: Fields, name: string)
    requires name != "tap_action" && name != "hold_action"
    ensures Get(WithDefaults(c), name) == Get(c, name)
  {
    NamesSnoc([BASE_ACTIONS[0]], BASE_ACTIONS[1]);
    assert [BASE_ACTIONS[0]] + [BASE_ACTIONS[1]] == BASE_ACTIONS;
    assert name !in Names(BASE_ACTIONS);
  }
}
