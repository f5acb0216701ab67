/** The template gauge card as a stateful element: its stored
    configuration, the latest template results, the per-key subscription
    map, the shared result cache, and what render and updated compute from
    them. Subscribing and unsubscribing are the host's; each call's outcome
    is a parameter. */
module CardState {
  import opened Js
  import opened Constants
  import opened CardTemplates
  import opened CardSeverity
  import opened CardGradient

  /** A live subscription, as the host identifies it. */
  type Handle = nat

  datatype SubscribeOutcome = Subscribed(handle: Handle) | SubscribeFailed

  /** How awaiting the unsubscribe function ends: it ran, or the host
      rejected with an error code. */
  datatype UnsubscribeOutcome = Unsubscribed | UnsubscribeFailed(code: string)

  /** `getCardSize` of the template card. */
  const CARD_SIZE: nat := 4

  const EMPTY_LISTENERS: Listeners := Listeners(false, [], [], false)

  /** `{...results}` with nothing when there are no results yet. */
  function Base(results: Option<TemplateResults>): TemplateResults
  {
    if results.Some? then results.value else map[]
  }

  /** The template results and the subscription map, the two pieces of
      state the per-key bookkeeping changes. */
  datatype Bookkeeping = Bookkeeping(results: Option<TemplateResults>, subs: map<TemplateKey, Handle>)

  // ---------------------------------------------------------------------
  // _tryConnectKey / _tryDisconnectKey

  /** The early return of `_tryConnectKey`. */
  predicate ConnectSkipped(h: Host, config: Option<Fields>, hasHass: bool, subs: map<TemplateKey, Handle>, key: TemplateKey)
  {
    key in subs || !hasHass || config.None? || !IsTemplate(h, config, key)
  }

  /** The fallback result stored when subscribing fails: the configured
      text itself (or "") with no listeners. */
  function FallbackResult(config: Option<Fields>, key: TemplateKey): RenderResult
  {
    RenderResult(Coalesce(FieldOf(config, key), Str("")), EMPTY_LISTENERS)
  }

  function ConnectKey(h: Host, config: Option<Fields>, hasHass: bool, b: Bookkeeping, key: TemplateKey,
                      outcome: SubscribeOutcome): Bookkeeping
  {
    if ConnectSkipped(h, config, hasHass, b.subs, key) then b
    else
      match outcome
      case Subscribed(hd) => b.(subs := b.subs[key := hd])
      case SubscribeFailed =>
        Bookkeeping(Some(Base(b.results)[key := FallbackResult(config, key)]), b.subs - {key})
  }

  /** `keys.forEach(k => this._tryConnectKey(k))`. */
  function ConnectKeys(h: Host, config: Option<Fields>, hasHass: bool, b: Bookkeeping, keys: seq<TemplateKey>,
                       outcome: TemplateKey -> SubscribeOutcome): Bookkeeping
    decreases |keys|
  {
    if keys == [] then b
    else ConnectKeys(h, config, hasHass, ConnectKey(h, config, hasHass, b, keys[0], outcome(keys[0])), keys[1..], outcome)
  }

  /** What awaiting the stored unsubscribe does to the map: an absent key
      and a swallowed error leave it, a successful unsubscribe removes the
      key, any other error is rethrown and leaves it too. */
  function DisconnectKey(subs: map<TemplateKey, Handle>, key: TemplateKey, outcome: UnsubscribeOutcome): map<TemplateKey, Handle>
  {
    if key in subs && outcome.Unsubscribed? then subs - {key} else subs
  }

  /** The errors `not_found` and `template_error` mean the connection was
      already closed. */
  predicate Swallowed(code: string)
  {
    code == "not_found" || code == "template_error"
  }

  /** The error `_tryDisconnectKey` rethrows, if any. */
  function Rethrown(subs: map<TemplateKey, Handle>, key: TemplateKey, outcome: UnsubscribeOutcome): Option<string>
  {
    if key in subs && outcome.UnsubscribeFailed? && !Swallowed(outcome.code) then Some(outcome.code) else None
  }

  function DisconnectKeys(subs: map<TemplateKey, Handle>, keys: seq<TemplateKey>,
                          outcome: TemplateKey -> UnsubscribeOutcome): map<TemplateKey, Handle>
    decreases |keys|
  {
    if keys == [] then subs
    else DisconnectKeys(DisconnectKey(subs, keys[0], outcome(keys[0])), keys[1..], outcome)
  }

  // ---------------------------------------------------------------------
  // setConfig

  /** The test of setConfig for one key: the key's value is not strictly
      equal, or the entity is not loosely equal. */
  predicate Changed(oldConfig: Option<Fields>, newConfig: Fields, key: TemplateKey)
  {
    || !StrictEq(FieldOf(oldConfig, key), Get(newConfig, KeyName(key)))
    || !LooseEq(if oldConfig.None? then Undefined else Get(oldConfig.value, "entity"), Get(newConfig, "entity"))
  }

  function DisconnectChanged(subs: map<TemplateKey, Handle>, oldConfig: Option<Fields>, newConfig: Fields,
                             keys: seq<TemplateKey>, outcome: TemplateKey -> UnsubscribeOutcome): map<TemplateKey, Handle>
    decreases |keys|
  {
    if keys == [] then subs
    else
      var subs' := if Changed(oldConfig, newConfig, keys[0]) then DisconnectKey(subs, keys[0], outcome(keys[0])) else subs;
      DisconnectChanged(subs', oldConfig, newConfig, keys[1..], outcome)
  }

  /** The stored configuration: toggle on tap and more-info on hold unless
      the given configuration says otherwise. */
  function StoredConfig(newConfig: Fields): Fields
  {
    Spread([Field("tap_action", Obj([Field("action", Str("toggle"))])),
            Field("hold_action", Obj([Field("action", Str("more-info"))]))], newConfig)
  }

  // ---------------------------------------------------------------------
  // render

  /** What render hands to the gauge. */
  datatype GaugeProps = GaugeProps(
    min: Num, max: Num, value: Num, valueText: JsValue, colour: JsValue,
    needle: JsValue, gradient: JsValue, levels: Option<seq<Level>>)

  datatype CardView = CardView(gauge: GaugeProps, name: JsValue)

  /** render: nothing without a configuration or a host; else the gauge's
      properties, where computing the colour or the levels may raise. */
  function Render(h: Host, p: Palette, config: Option<Fields>, results: Option<TemplateResults>, hasHass: bool)
    : Option<Outcome<CardView>>
  {
    if config.None? || !hasHass then None
    else
      var c := config.value;
      var inp := Inputs(h, config, results);
      var colour := SeveritySpec(h, p, c, results, inp.value);
      var needle := Get(c, "needle");
      var levels := if Truthy(needle) then Some(SeverityLevels(h, p, c, results)) else None;
      if colour.TypeError? || (levels.Some? && levels.value.TypeError?) then Some(TypeError)
      else
        Some(Ok(CardView(
          GaugeProps(inp.min, inp.max, inp.value, inp.valueText, colour.value, needle, Get(c, "gradient"),
                     if levels.Some? then Some(levels.value.value) else None),
          inp.name)))
  }

  // ---------------------------------------------------------------------
  // The shared cache and the card

  /** The module-wide cache of template results, keyed by the hash of a
      configuration. */
  class TemplateCache {
    var entries: map<int, TemplateResults>

    constructor()
      ensures entries == map[]
    {
      entries := map[];
    }
  }

  class TemplateCard {
    const host: Host
    const palette: Palette
    /** object-hash of a configuration. */
    const hash: Fields -> int
    var config: Option<Fields>
    var results: Option<TemplateResults>
    var subs: map<TemplateKey, Handle>
    var hasHass: bool
    var prevMin: Option<Num>
    var prevMax: Option<Num>

    constructor(h: Host, p: Palette, hash: Fields -> int)
      ensures host == h && palette == p && this.hash == hash
      ensures config == None && results == None && subs == map[] && !hasHass
      ensures prevMin == None && prevMax == None
    {
      host := h;
      palette := p;
      this.hash := hash;
      config := None;
      results := None;
      subs := map[];
      hasHass := false;
      prevMin := None;
      prevMax := None;
    }

    function State(): Bookkeeping
      reads this
    {
      Bookkeeping(results, subs)
    }

    /** The `hass` property being set or cleared. */
    method SetHass(present: bool)
      modifies this
      ensures hasHass == present
      ensures config == old(config) && results == old(results) && subs == old(subs)
      ensures prevMin == old(prevMin) && prevMax == old(prevMax)
    {
      hasHass := present;
    }

    method TryConnectKey(key: TemplateKey, outcome: SubscribeOutcome)
      modifies this
      ensures State() == ConnectKey(host, config, hasHass, old(State()), key, outcome)
      ensures config == old(config) && hasHass == old(hasHass)
      ensures prevMin == old(prevMin) && prevMax == old(prevMax)
    {
      if key in subs || !hasHass || config.None? || !IsTemplate(host, config, key) {
        return;
      }
      match outcome {
        case Subscribed(hd) =>
          subs := subs[key := hd];
        case SubscribeFailed =>
          ghost var before := subs;
          subs := subs[key := 0];
          results := Some(Base(results)[key := FallbackResult(config, key)]);
          subs := subs - {key};
          assert subs == before - {key};
      }
    }

    method TryConnect(outcome: TemplateKey -> SubscribeOutcome)
      modifies this
      ensures State() == ConnectKeys(host, config, hasHass, old(State()), TEMPLATE_KEYS, outcome)
      ensures config == old(config) && hasHass == old(hasHass)
      ensures prevMin == old(prevMin) && prevMax == old(prevMax)
    {
      for i := 0 to |TEMPLATE_KEYS|
        invariant ConnectKeys(host, config, hasHass, State(), TEMPLATE_KEYS[i..], outcome)
               == ConnectKeys(host, config, hasHass, old(State()), TEMPLATE_KEYS, outcome)
        invariant config == old(config) && hasHass == old(hasHass)
        invariant prevMin == old(prevMin) && prevMax == old(prevMax)
      {
        assert TEMPLATE_KEYS[i..][1..] == TEMPLATE_KEYS[i + 1..];
        TryConnectKey(TEMPLATE_KEYS[i], outcome(TEMPLATE_KEYS[i]));
      }
    }

    method TryDisconnectKey(key: TemplateKey, outcome: UnsubscribeOutcome) returns (thrown: Option<string>)
      modifies this
      ensures subs == DisconnectKey(old(subs), key, outcome)
      ensures thrown == Rethrown(old(subs), key, outcome)
      ensures config == old(config) && results == old(results) && hasHass == old(hasHass)
      ensures prevMin == old(prevMin) && prevMax == old(prevMax)
    {
      thrown := None;
      if key !in subs {
        return;
      }
      match outcome {
        case Unsubscribed =>
          subs := subs - {key};
        case UnsubscribeFailed(code) =>
          if !(code == "not_found" || code == "template_error") {
            thrown := Some(code);
          }
      }
    }

    /** `_tryDisconnect`: the keys' rejections are not awaited, so none
        reaches the caller. */
    method TryDisconnect(outcome: TemplateKey -> UnsubscribeOutcome)
      modifies this
      ensures subs == DisconnectKeys(old(subs), TEMPLATE_KEYS, outcome)
      ensures config == old(config) && results == old(results) && hasHass == old(hasHass)
      ensures prevMin == old(prevMin) && prevMax == old(prevMax)
    {
      for i := 0 to |TEMPLATE_KEYS|
        invariant DisconnectKeys(subs, TEMPLATE_KEYS[i..], outcome) == DisconnectKeys(old(subs), TEMPLATE_KEYS, outcome)
        invariant config == old(config) && results == old(results) && hasHass == old(hasHass)
        invariant prevMin == old(prevMin) && prevMax == old(prevMax)
      {
        assert TEMPLATE_KEYS[i..][1..] == TEMPLATE_KEYS[i + 1..];
        var _ := TryDisconnectKey(TEMPLATE_KEYS[i], outcome(TEMPLATE_KEYS[i]));
      }
    }

    method SetConfig(newConfig: Fields, outcome: TemplateKey -> UnsubscribeOutcome)
      modifies this
      ensures subs == DisconnectChanged(old(subs), old(config), newConfig, TEMPLATE_KEYS, outcome)
      ensures config == Some(StoredConfig(newConfig))
      ensures results == old(results) && hasHass == old(hasHass)
      ensures prevMin == old(prevMin) && prevMax == old(prevMax)
    {
      for i := 0 to |TEMPLATE_KEYS|
        invariant DisconnectChanged(subs, old(config), newConfig, TEMPLATE_KEYS[i..], outcome)
               == DisconnectChanged(old(subs), old(config), newConfig, TEMPLATE_KEYS, outcome)
        invariant config == old(config) && results == old(results) && hasHass == old(hasHass)
        invariant prevMin == old(prevMin) && prevMax == old(prevMax)
      {
        assert TEMPLATE_KEYS[i..][1..] == TEMPLATE_KEYS[i + 1..];
        var key := TEMPLATE_KEYS[i];
        if Changed(config, newConfig, key) {
          var _ := TryDisconnectKey(key, outcome(key));
        }
      }
      config := Some(StoredConfig(newConfig));
    }

    /** A pushed template result replaces the key's entry. */
    method OnResult(key: TemplateKey, result: RenderResult)
      modifies this
      ensures results == Some(Base(old(results))[key := result])
      ensures config == old(config) && subs == old(subs) && hasHass == old(hasHass)
      ensures prevMin == old(prevMin) && prevMax == old(prevMax)
    {
      results := Some(Base(results)[key := result]);
    }

    /** willUpdate: a configured card without results starts from the
        cached results of its configuration, or from none. */
    method WillUpdate(cache: TemplateCache)
      modifies this
      ensures old(config).Some? && old(results).None? ==>
        results == Some(WarmStart(cache.entries, hash(old(config).value)))
      ensures !(old(config).Some? && old(results).None?) ==> results == old(results)
      ensures config == old(config) && subs == old(subs) && hasHass == old(hasHass)
      ensures prevMin == old(prevMin) && prevMax == old(prevMax)
    {
      if config.None? {
        return;
      }
      if results.None? {
        var key := hash(config.value);
        if key in cache.entries {
          results := Some(cache.entries[key]);
        } else {
          results := Some(map[]);
        }
      }
    }

    /** disconnectedCallback: unsubscribe every key, then keep the results
        in the cache under the configuration's hash. */
    method DisconnectedCallback(cache: TemplateCache, outcome: TemplateKey -> UnsubscribeOutcome)
      modifies this, cache
      ensures subs == DisconnectKeys(old(subs), TEMPLATE_KEYS, outcome)
      ensures config.Some? && results.Some? ==>
        cache.entries == Snapshot(old(cache.entries), hash(config.value), results.value)
      ensures !(config.Some? && results.Some?) ==> cache.entries == old(cache.entries)
      ensures config == old(config) && results == old(results) && hasHass == old(hasHass)
      ensures prevMin == old(prevMin) && prevMax == old(prevMax)
    {
      TryDisconnect(outcome);
      if config.Some? && results.Some? {
        cache.entries := cache.entries[hash(config.value) := results.value];
      }
    }

    /** The gradient stops `updated` builds, with the info-stop test
        `rule` (`AsWritten` is the card's code): only when the gauge shows
        the gradient path, and a TypeError from the severity levels or from
        a stroke that is not a string propagates. */
    method BuildStops(rule: InfoRule, resolve: string -> string) returns (stops: Option<Outcome<seq<Stop>>>)
      requires config.Some?
      ensures stops == GradientOf(rule, host, palette, resolve, config.value, results)
    {
      stops := None;
      var c := config.value;
      if Truthy(Get(c, "gradient")) && Truthy(Get(c, "needle")) {
        var inp := Inputs(host, config, results);
        var levels := SeverityLevels(host, palette, c, results);
        if levels.TypeError? {
          stops := Some(TypeError);
        } else {
          var s := BuildGradientStops(rule, palette, resolve, levels.value, inp.min, inp.max);
          stops := Some(s);
        }
      }
    }

    /** updated: with a configuration and a host, draw the gradient when it
        is on and the gauge shows its path (needle mode), remember the
        range, and connect the templates. A TypeError while building the
        stops leaves `updated` before the range is remembered and before
        anything is connected. Returns the gradient's stops when they were
        built. */
    method Updated(rule: InfoRule, resolve: string -> string, outcome: TemplateKey -> SubscribeOutcome)
      returns (stops: Option<Outcome<seq<Stop>>>)
      modifies this
      ensures old(config).None? || !old(hasHass) ==>
        stops == None && State() == old(State()) && prevMin == old(prevMin) && prevMax == old(prevMax)
      ensures old(config).Some? && old(hasHass) ==>
        stops == GradientOf(rule, host, palette, resolve, old(config).value, old(results))
      ensures old(config).Some? && old(hasHass) && stops == Some(TypeError) ==>
        State() == old(State()) && prevMin == old(prevMin) && prevMax == old(prevMax)
      ensures old(config).Some? && old(hasHass) && stops != Some(TypeError) ==>
        && prevMin == Some(Inputs(host, old(config), old(results)).min)
        && prevMax == Some(Inputs(host, old(config), old(results)).max)
        && State() == ConnectKeys(host, config, hasHass, old(State()), TEMPLATE_KEYS, outcome)
      ensures config == old(config) && hasHass == old(hasHass)
    {
      stops := None;
      if config.None? || !hasHass {
        return;
      }
      var inp := Inputs(host, config, results);
      stops := BuildStops(rule, resolve);
      if stops == Some(TypeError) {
        return;
      }
      prevMin := Some(inp.min);
      prevMax := Some(inp.max);
      TryConnect(outcome);
    }
  }

  /** A card that is disconnected and a new card with the same
      configuration that has no results yet: after the first card's
      disconnectedCallback and the second card's willUpdate, the second
      card starts from the results the first one had. */
  method WarmStartRoundTrip(a: TemplateCard, b: TemplateCard, cache: TemplateCache,
                            outcome: TemplateKey -> UnsubscribeOutcome)
    requires a.config.Some? && a.results.Some?
    requires b.config == a.config && b.results.None? && b.hash == a.hash
    modifies a, b, cache
    ensures b.results == old(a.results)
  {
    a.DisconnectedCallback(cache, outcome);
    b.WillUpdate(cache);
  }

  /** The results a card starts from: the cached ones for its key, else
      none. */
  function WarmStart(entries: map<int, TemplateResults>, key: int): TemplateResults
  {
    if key in entries then entries[key] else map[]
  }

  function Snapshot(entries: map<int, TemplateResults>, key: int, results: TemplateResults): map<int, TemplateResults>
  {
    entries[key := results]
  }

  /** The gradient stops updated builds with the info-stop test `rule`,
      when the gauge shows the path. */
  function GradientOf(rule: InfoRule, h: Host, p: Palette, resolve: string -> string, config: Fields,
                      results: Option<TemplateResults>)
    : Option<Outcome<seq<Stop>>>
  {
    if Truthy(Get(config, "gradient")) && Truthy(Get(config, "needle")) then
      var inp := Inputs(h, Some(config), results);
      match SeverityLevels(h, p, config, results)
      case TypeError => Some(TypeError)
      case Ok(levels) => Some(GradientStops(rule, p, resolve, levels, inp.min, inp.max))
    else None
  }

  // ---------------------------------------------------------------------
  // Properties

  lemma AllKeysListed(k: TemplateKey)
    ensures k in TEMPLATE_KEYS
  {
  }

  /** Connecting never replaces an existing subscription; a new entry only
      appears for a listed template key whose subscription succeeded, with
      its handle; and each such key has an entry afterwards. */
  lemma {:induction false} ConnectKeysEntries(h: Host, config: Option<Fields>, hasHass: bool, b: Bookkeeping,
                                             keys: seq<TemplateKey>, outcome: TemplateKey -> SubscribeOutcome)
    ensures var r := ConnectKeys(h, config, hasHass, b, keys, outcome).subs;
      && (forall k :: k in b.subs ==> k in r && r[k] == b.subs[k])
      && (forall k :: k in r && k !in b.subs ==>
            k in keys && hasHass && config.Some? && IsTemplate(h, config, k)
            && outcome(k).Subscribed? && r[k] == outcome(k).handle)
      && (forall k :: k in keys && hasHass && config.Some? && IsTemplate(h, config, k) && outcome(k).Subscribed?
            ==> k in r)
    decreases |keys|
  {
    if keys != [] {
      var b' := ConnectKey(h, config, hasHass, b, keys[0], outcome(keys[0]));
      ConnectKeysEntries(h, config, hasHass, b', keys[1..], outcome);
      assert forall k :: k in keys[1..] ==> k in keys;
    }
  }

  /** Once every template key is subscribed, connecting again changes
      nothing, whatever the outcomes would be. */
  lemma {:induction false} ConnectWhenAllSubscribed(h: Host, config: Option<Fields>, hasHass: bool, b: Bookkeeping,
                                                   keys: seq<TemplateKey>, outcome: TemplateKey -> SubscribeOutcome)
    requires forall k :: hasHass && config.Some? && IsTemplate(h, config, k) ==> k in b.subs
    ensures ConnectKeys(h, config, hasHass, b, keys, outcome) == b
    decreases |keys|
  {
    if keys != [] {
      ConnectWhenAllSubscribed(h, config, hasHass, b, keys[1..], outcome);
    }
  }

  /** With every subscription succeeding, connecting is idempotent. */
  lemma ConnectIdempotent(h: Host, config: Option<Fields>, hasHass: bool, b: Bookkeeping,
                          outcome: TemplateKey -> SubscribeOutcome, again: TemplateKey -> SubscribeOutcome)
    requires forall k :: outcome(k).Subscribed?
    ensures var once := ConnectKeys(h, config, hasHass, b, TEMPLATE_KEYS, outcome);
      ConnectKeys(h, config, hasHass, once, TEMPLATE_KEYS, again) == once
  {
    var once := ConnectKeys(h, config, hasHass, b, TEMPLATE_KEYS, outcome);
    ConnectKeysEntries(h, config, hasHass, b, TEMPLATE_KEYS, outcome);
    forall k | hasHass && config.Some? && IsTemplate(h, config, k) ensures k in once.subs {
      AllKeysListed(k);
    }
    ConnectWhenAllSubscribed(h, config, hasHass, once, TEMPLATE_KEYS, again);
  }

  /** When subscribing to a template field fails, the field reads its own
      text from then on. */
  lemma FailedConnectShowsTemplate(h: Host, config: Option<Fields>, b: Bookkeeping, key: TemplateKey, t: string)
    requires FieldOf(config, key) == Str(t) && '{' in t
    requires key !in b.subs
    ensures var r := ConnectKey(h, config, true, b, key, SubscribeFailed);
      && key !in r.subs
      && GetValue(h, config, r.results, key) == Str(t)
  {
  }

  /** Disconnecting removes exactly the listed keys whose unsubscribe
      succeeded; a swallowed or rethrown error keeps the entry. */
  lemma {:induction false} DisconnectKeysEntries(subs: map<TemplateKey, Handle>, keys: seq<TemplateKey>,
                                                outcome: TemplateKey -> UnsubscribeOutcome)
    ensures DisconnectKeys(subs, keys, outcome)
         == map k | k in subs && !(k in keys && outcome(k).Unsubscribed?) :: subs[k]
    decreases |keys|
  {
    if keys != [] {
      var subs' := DisconnectKey(subs, keys[0], outcome(keys[0]));
      DisconnectKeysEntries(subs', keys[1..], outcome);
      assert forall k :: k in keys <==> k == keys[0] || k in keys[1..];
    }
  }

  /** A card whose every unsubscribe succeeds is left with no subscription. */
  lemma DisconnectAllClears(subs: map<TemplateKey, Handle>, outcome: TemplateKey -> UnsubscribeOutcome)
    requires forall k :: outcome(k).Unsubscribed?
    ensures DisconnectKeys(subs, TEMPLATE_KEYS, outcome) == map[]
  {
    DisconnectKeysEntries(subs, TEMPLATE_KEYS, outcome);
    forall k | k in subs ensures k in TEMPLATE_KEYS {
      AllKeysListed(k);
    }
  }

  /** Only errors other than `not_found` and `template_error` are
      rethrown, and only for a key that has an entry, which stays. */
  lemma RethrowOnlyUnexpected(subs: map<TemplateKey, Handle>, key: TemplateKey, outcome: UnsubscribeOutcome)
    ensures Rethrown(subs, key, outcome).Some? ==> DisconnectKey(subs, key, outcome) == subs
    ensures Rethrown(subs, key, outcome).Some? <==>
      key in subs && outcome.UnsubscribeFailed? && outcome.code != "not_found" && outcome.code != "template_error"
  {
  }

  /** setConfig removes exactly the listed keys that changed and whose
      unsubscribe succeeded. */
  lemma {:induction false} DisconnectChangedEntries(subs: map<TemplateKey, Handle>, oldConfig: Option<Fields>,
                                                   newConfig: Fields, keys: seq<TemplateKey>,
                                                   outcome: TemplateKey -> UnsubscribeOutcome)
    ensures DisconnectChanged(subs, oldConfig, newConfig, keys, outcome)
         == map k | k in subs && !(k in keys && Changed(oldConfig, newConfig, k) && outcome(k).Unsubscribed?) :: subs[k]
    decreases |keys|
  {
    if keys != [] {
      var subs' := if Changed(oldConfig, newConfig, keys[0]) then DisconnectKey(subs, keys[0], outcome(keys[0])) else subs;
      DisconnectChangedEntries(subs', oldConfig, newConfig, keys[1..], outcome);
      assert forall k :: k in keys <==> k == keys[0] || k in keys[1..];
    }
  }

  /** A change of entity counts as a change of every template key. */
  lemma EntityChangeChangesAll(oldConfig: Fields, newConfig: Fields, k: TemplateKey)
    requires !LooseEq(Get(oldConfig, "entity"), Get(newConfig, "entity"))
    ensures Changed(Some(oldConfig), newConfig, k)
  {
  }

  /** A primitive value, one `===` relates to itself. */
  predicate Primitive(v: JsValue)
  {
    !(v.Arr? || v.Obj? || (v.Number? && v.n.NaN?))
  }

  /** Applying the same configuration again keeps every subscription when
      the entity and the template fields are primitive values. */
  lemma SameConfigKeepsSubscriptions(subs: map<TemplateKey, Handle>, c: Fields,
                                     outcome: TemplateKey -> UnsubscribeOutcome)
    requires Primitive(Get(c, "entity"))
    requires forall k :: Primitive(Get(c, KeyName(k)))
    ensures DisconnectChanged(subs, Some(StoredConfig(c)), c, TEMPLATE_KEYS, outcome) == subs
  {
    var old' := Some(StoredConfig(c));
    DisconnectChangedEntries(subs, old', c, TEMPLATE_KEYS, outcome);
    forall k ensures !Changed(old', c, k) {
      SameKeyUnchanged(c, k);
    }
    var m := map k | k in subs && !(k in TEMPLATE_KEYS && Changed(old', c, k) && outcome(k).Unsubscribed?) :: subs[k];
    assert m.Keys == subs.Keys;
    assert m == subs;
  }

  lemma SameKeyUnchanged(c: Fields, k: TemplateKey)
    requires Primitive(Get(c, "entity")) && Primitive(Get(c, KeyName(k)))
    ensures !Changed(Some(StoredConfig(c)), c, k)
  {
    KeyNameNotAction(k);
    StoredField(c, KeyName(k));
    StoredField(c, "entity");
  }

  /** No template key is one of the two action names. */
  lemma KeyNameNotAction(k: TemplateKey)
    ensures KeyName(k) != "tap_action" && KeyName(k) != "hold_action"
  {
  }

  /** Every field other than the two actions is stored as given. */
  lemma StoredField(c: Fields, name: string)
    requires name != "tap_action" && name != "hold_action"
    ensures Get(StoredConfig(c), name) == Get(c, name)
  {
    var d := [Field("tap_action", Obj([Field("action", Str("toggle"))])),
              Field("hold_action", Obj([Field("action", Str("more-info"))]))];
    NamesSnoc([d[0]], d[1]);
    assert [d[0]] + [d[1]] == d;
    assert name !in Names(d);
  }

  /** The stored configuration reads every given field as given, and the
      two actions fall back to toggle and more-info. */
  lemma StoredConfigDefaults(c: Fields)
    ensures forall k :: k in Names(c) ==> Get(StoredConfig(c), k) == Get(c, k)
    ensures "tap_action" !in Names(c) ==> Get(StoredConfig(c), "tap_action") == Obj([Field("action", Str("toggle"))])
    ensures "hold_action" !in Names(c) ==> Get(StoredConfig(c), "hold_action") == Obj([Field("action", Str("more-info"))])
    ensures Names(StoredConfig(c)) == Names(c) + {"tap_action", "hold_action"}
  {
    var d := [Field("tap_action", Obj([Field("action", Str("toggle"))])),
              Field("hold_action", Obj([Field("action", Str("more-info"))]))];
    NamesSnoc([d[0]], d[1]);
    assert [d[0]] + [d[1]] == d;
    assert Names([d[0]]) == {"tap_action"};
    GetSnoc([d[0]], d[1]);
    assert Get(d, "tap_action") == Get([d[0]], "tap_action");
  }

  /** Render hands the gauge levels exactly in needle mode, and a colour
      only outside it. */
  lemma RenderLevelsInNeedleMode(h: Host, p: Palette, config: Fields, results: Option<TemplateResults>)
    requires Render(h, p, Some(config), results, true).Some?
    requires Render(h, p, Some(config), results, true).value.Ok?
    ensures var g := Render(h, p, Some(config), results, true).value.value.gauge;
      && (g.levels.Some? <==> Truthy(Get(config, "needle")))
      && (Truthy(Get(config, "needle")) ==> g.colour == Undefined)
  {
  }

  /** Render draws nothing without a configuration or a host. */
  lemma RenderNeedsConfigAndHost(h: Host, p: Palette, config: Option<Fields>, results: Option<TemplateResults>, hasHass: bool)
    ensures Render(h, p, config, results, hasHass).None? <==> config.None? || !hasHass
  {
  }
}
