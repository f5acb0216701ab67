# Template Gauge Card — a Dafny model

This project models the decision logic of the Template Gauge Card, a Home
Assistant dashboard card. The card shows a value on a half-circle gauge. Its
fields may be Jinja templates that Home Assistant renders and pushes to the
card.

The model covers:

- how a field is classified as a literal or a template, and the numeric
  defaults used when a field is missing;
- the colour of the value arc, from the sorted `segments` list or from the
  legacy three-band `severity` map;
- the level list handed to the gauge in needle mode;
- the colour stops of the gradient, and the resolution the gradient is drawn with;
- the per-field subscription bookkeeping, and the template-result cache that
  survives a disconnect;
- the gauge element: the angle, which SVG layers it draws, and the in-place
  sort of its level array;
- the configuration schema, modelled as a validation predicate;
- the two form editors: schema visibility, labels, and the rewrite of the
  edited configuration;
- the generic element editor's error, warning and GUI-mode state machine;
- the base card's defaults and entity-state lookup.

Layout, one module per file:

| file | module | what it holds |
|---|---|---|
| `js.dfy` | `Js` | JavaScript values (`undefined`, `null`, booleans, numbers with NaN, strings, arrays, objects as ordered field lists), truthiness, nullish and logical defaults, strict equality, loose equality as the card uses it (without number/string/boolean conversion), `String()`/`Number()` over a host formatter and parser, property get/set/delete and object spread |
| `sorting.dfy` | `Sorting` | the stable sort with a numeric comparator that `Array.prototype.sort` performs, as an insertion sort on sequences |
| `constants.dfy` | `Constants` | `DEFAULT_MIN`/`DEFAULT_MAX`, the resolution table, and the severity colour map with its CSS-variable fallbacks |
| `config_schema.dfy` | `ConfigSchema` | `templateCardConfigStruct` as a predicate |
| `card_templates.dfy` | `CardTemplates` | `TEMPLATE_KEYS`, `isTemplate`, `getValue`, and the render inputs with their defaults |
| `card_severity.dfy` | `CardSeverity` | `getSeverity`/`getSegments`, `_computeSeverity` (a method with loops, proved against a function) and `_severityLevels` |
| `card_gradient.dfy` | `CardGradient` | the stop-building loop of `_renderGradient` (a method proved against a function) and the resolution choice |
| `card_state.dfy` | `CardState` | the card as a class: `setConfig`, connect/disconnect, `willUpdate`, `disconnectedCallback`, `updated`, `render`, and the template cache |
| `gauge.dfy` | `Gauge` | `getAngle`, layer selection, level arcs, and the gauge element as a class whose `render` sorts its `levels` array in place |
| `editors.dfy` | `Editors` | both form editors: `_schema`, `_computeLabel`, `setConfig`, `render`, `_valueChanged` |
| `element_editor.dfy` | `ElementEditor` | the generic element editor as a class |
| `base_card.dfy` | `BaseCard` | the base card's `setConfig`, `_stateObj`, `computeDarkMode` |

Interactions with the host become parameters. These are:

- the Home Assistant connection's subscribe and unsubscribe outcomes;
- the CSS variables;
- YAML `load`/`dump`;
- the editor schema validator;
- the object hash;
- the visual editor's rejection of a configuration.

Where the source throws, for example on reading a property of `undefined`,
the model returns `TypeError`.

The template card's `getCardSize` (4) is `CardState.CARD_SIZE`. The base
card's `getCardSize` (1) and `hasControls` (false) are
`BaseCard.BASE_CARD_SIZE` and `BaseCard.BASE_HAS_CONTROLS`.

Two details of the code that the model keeps as they are:

- `value` is optional in the validator, although `TemplateCardConfig`
  declares it required (`ConfigSchema.ValueOptional`).
- The gradient's info stop is decided by comparing the level, already
  shifted by `-min`, with `min` (see Findings). The card's gradient members
  take the info-stop test as a parameter: `AsWritten` is the code,
  `Intended` the correction.

## Model

| member | source | states |
|---|---|---|
| Constants.DefaultRangeProper | src/card/const.ts:4-5 | the default range is proper: 0 < 100 |
| Constants.DefaultResolutionIsKey | src/card/const.ts:6-20 | the default resolution "medium" is a key of the resolution table |
| Constants.ResolutionOf | src/card/const.ts:7-20 | a resolution name has an entry iff it is low, medium or high |
| Constants.ResolutionsIncrease | src/card/const.ts:7-20 | from low to medium to high, both the segment count and the sample count strictly increase |
| Constants.LoadPalette | src/card/const.ts:22-33 | each colour is its CSS variable when that is non-empty, and otherwise the fixed hex fallback |
| Constants.SeverityColour | src/card/const.ts:35-40 | the severity map has exactly the names red, green, yellow and normal |
| Constants.SeverityMapColours | src/card/const.ts:35-40 | red, green, yellow and normal map to the error, success, warning and info colours |
| ConfigSchema.ValueOptional | src/card/template-gauge-card-config.ts:64 | removing `value` from a valid configuration leaves it valid |
| ConfigSchema.UnknownKeyRejected | src/card/template-gauge-card-config.ts:60-80 | a key known to neither the card schema nor the base schema makes a configuration invalid |
| ConfigSchema.SeverityKeys | src/card/template-gauge-card-config.ts:27-31 | a valid severity object has exactly the keys green, yellow and red |
| ConfigSchema.RangeFieldTypes | src/card/template-gauge-card-config.ts:67-68 | in a valid configuration, `min` and `max` are each absent, a string, or a non-NaN number |
| ConfigSchema.FieldTypes | src/card/template-gauge-card-config.ts:33-79 | in a valid configuration: every segment has a numeric `from` and a string `color`; `needle` and `gradient` are booleans; `gradientResolution` is low, medium or high; `entity_id` is a string or a list of strings |
| CardTemplates.StringTemplateIffBrace | src/card/template-gauge-card.ts:180-183 | a string field is a template iff it contains `{` |
| CardTemplates.NonStringsAreLiterals | src/card/template-gauge-card.ts:180-189 | a number, boolean or missing field is never a template, and `getValue` returns it as configured |
| CardTemplates.TemplateReadsResultText | src/card/template-gauge-card.ts:185-189 | for a template field with a result, `getValue` is the result's string form |
| CardTemplates.FalsyFieldsDefault | src/card/template-gauge-card.ts:296-298 | a missing, empty or numeric-0 `max` becomes 100 |
| CardTemplates.TemplateZeroKept | src/card/template-gauge-card.ts:293-298 | a template `max` whose result is 0 is kept as 0, because its string "0" is truthy |
| CardTemplates.LiteralMaxUsed | src/card/template-gauge-card.ts:296-298 | a literal non-zero numeric `max` is used as given |
| CardSeverity.ComputeSeverity | src/card/template-gauge-card.ts:202-255 | the scan loop and the validity loop compute exactly `SeveritySpec` |
| CardSeverity.FirstMatchFrom | src/card/template-gauge-card.ts:212-221 | the returned index is the first one passing the scan's test; no index before it passes, and without a result none passes |
| CardSeverity.SortSegments | src/card/template-gauge-card.ts:210 | sorting a copy of the segments keeps their number |
| CardSeverity.Defined | src/card/template-gauge-card.ts:210 | exactly the items that are not undefined, never more than given; all of them when none is undefined |
| CardSeverity.DefinedConcat | src/card/template-gauge-card.ts:210 | dropping undefined items from a joined list is dropping them from each part and joining, so the kept items keep their order |
| CardSeverity.DefinedSingle | src/card/template-gauge-card.ts:210 | a single item is kept iff it is not undefined |
| CardSeverity.SortSegmentsNumeric | src/card/template-gauge-card.ts:210 | with numeric `from`s, the sort succeeds and is a stable sort by `from` |
| CardSeverity.MatchAtOrAfter | src/card/template-gauge-card.ts:212-221 | once the value reaches some segment's `from`, the scan finds a match at or after it |
| CardSeverity.SortedScan | src/card/template-gauge-card.ts:212-222 | on sorted segments, the scan picks index k iff `from[k]` ≤ value < every later `from`; it finds nothing iff the value is below every `from` |
| CardSeverity.SortedScanGreatest | src/card/template-gauge-card.ts:208-222 | the segment found is the one with the greatest `from` ≤ value in the unsorted list |
| CardSeverity.ItemsScanGreatest | src/card/template-gauge-card.ts:208-222 | over the configured items: the info colour when the value is below every `from`; otherwise the colour of an item with the greatest `from` ≤ value |
| CardSeverity.SegmentPath | src/card/template-gauge-card.ts:203-222 | outside needle mode with segments, the colour is the scan's colour over the sorted segments |
| CardSeverity.SegmentColourIsGreatestAtOrBelow | src/card/template-gauge-card.ts:202-222 | with numeric segments, `_computeSeverity` never fails; it gives the info colour below every `from`, else the colour of the greatest `from` ≤ value |
| CardSeverity.AfterMatchAbove | src/card/template-gauge-card.ts:212-219 | on sorted segments, the value is below every `from` after a matching index |
| CardSeverity.NoMatchAllAbove | src/card/template-gauge-card.ts:212-222 | on sorted segments, no match means the value is below every `from` |
| CardSeverity.LegacyPath | src/card/template-gauge-card.ts:226-254 | with valid legacy entries, the colour is the band test over the entries sorted by threshold |
| CardSeverity.SortedEntries | src/card/template-gauge-card.ts:243 | sorting the legacy entries is a permutation that keeps them valid and orders the thresholds |
| CardSeverity.LegacyThreeBands | src/card/template-gauge-card.ts:226-254 | with three valid entries sorted as t0 ≤ t1 ≤ t2: below t0 gives normal, [t0,t1) gives key0, [t1,t2) gives key1, and ≥ t2 gives key2 |
| CardSeverity.LegacyFewerThanThree | src/card/template-gauge-card.ts:245-253 | with fewer than three valid entries, the band tests fail (read past the list) unless two entries bracket the value |
| CardSeverity.LegacyInvalidIsNormal | src/card/template-gauge-card.ts:238-242 | one entry with an unknown name or a NaN threshold gives the normal colour |
| CardSeverity.NoThresholdsIsNormal | src/card/template-gauge-card.ts:202-272 | without segments or severity: undefined in needle mode, else normal; the level list is a single normal level at 0 |
| CardSeverity.ValidSeverityEntries | src/card/template-gauge-card-config.ts:27-31 | a schema-valid severity object gives exactly three valid entries |
| CardSeverity.LegacyBandsTotal | src/card/template-gauge-card.ts:245-254 | with three or more entries, the band tests never fail |
| CardSeverity.CheckedConfigNeverThrows | src/card/template-gauge-card.ts:202-255 | for a schema-valid configuration that no template result overrides, `_computeSeverity` never fails |
| CardSeverity.CheckedConfigLevels | src/card/template-gauge-card.ts:257-279 | for such a configuration, `_severityLevels` succeeds, with finite levels and string strokes |
| CardSeverity.SegmentsExample | src/card/template-gauge-card.ts:208-222 | segments red@0 and green@50 give green at the value 50 |
| CardSeverity.LegacyExample | src/card/template-gauge-card.ts:226-250 | green 0, yellow 50, red 80 give the warning colour at the value 65 |
| CardGradient.NumDiv | src/card/template-gauge-card.ts:351 | the quotient is finite iff both operands are finite and the divisor is non-zero; then quotient × divisor = dividend |
| CardGradient.BuildGradientStops | src/card/template-gauge-card.ts:335-373 | the push loop, its `firstSegmentCreated` flag, the fallback and the sort compute exactly `GradientStops` |
| CardGradient.ChosenResolution | src/card/template-gauge-card.ts:375-382 | for every configuration: the configured `gradientResolution` when it is a string naming an entry of the resolution table, otherwise `DEFAULT_GRADIENT_RESOLUTION`; either way a table entry |
| CardGradient.ResolutionChoice | src/card/template-gauge-card.ts:375-382 | a configuration the schema accepts (`gradientResolutionStruct`) never reaches the fallback with a set resolution: a present resolution is used as configured, a missing one gives "medium" |
| CardGradient.LoopShape | src/card/template-gauge-card.ts:340-362 | the loop pushes one stop per kept level, plus the info stop; when pushed, the info stop is at position 0 and comes first |
| CardGradient.LoopPositions | src/card/template-gauge-card.ts:340-362 | after the optional info stop at 0, the stops are the kept levels in order, the i-th one giving its colour at `(level - min) / (max - min)` |
| CardGradient.LoopStopsInUnit | src/card/template-gauge-card.ts:341-351 | for a proper range and finite levels, every pushed position lies in [0, 1] |
| CardGradient.GradientShape | src/card/template-gauge-card.ts:364-373 | the result has at least two stops; fewer than two pushed stops give exactly [warning@0, error@1], otherwise a permutation of the pushed stops |
| CardGradient.GradientSortedInUnit | src/card/template-gauge-card.ts:335-373 | the final stops are sorted by position, and every position is in [0, 1] |
| CardGradient.StringStrokesNeverThrow | src/card/template-gauge-card.ts:352-358 | when every stroke is a string, building the stops never fails |
| CardGradient.CheckedConfigGradient | src/card/template-gauge-card.ts:335-362 | for a schema-valid configuration that no template result overrides, the stops are built without failure |
| CardGradient.IntendedInfoRule | src/card/template-gauge-card.ts:347-349 | corrected rule: the info stop is added iff the first kept level is above `min` |
| CardGradient.AsWrittenInfoRule | src/card/template-gauge-card.ts:345-349 | as written: the info stop is added iff the first kept level is above 2·`min` |
| CardGradient.InfoStopMissedAboveMin | src/card/template-gauge-card.ts:345-349 | counterexample: min 10, max 100, levels 20 and 60; as written, no info stop and the gradient starts red; corrected, an info stop at 0 |
| CardGradient.InfoStopAddedOnMin | src/card/template-gauge-card.ts:345-349 | counterexample: min −10, a level at −10; as written, an extra info stop at 0; corrected, none |
| CardState.TemplateCard.SetConfig | src/card/template-gauge-card.ts:121-139 | the subscriptions are those left after disconnecting every changed key; the stored configuration is the defaults-merged one; nothing else changes |
| CardState.DisconnectChangedEntries | src/card/template-gauge-card.ts:122-129 | exactly the keys whose field or entity changed, and whose unsubscribe ran, lose their entry |
| CardState.EntityChangeChangesAll | src/card/template-gauge-card.ts:123-125 | a changed entity marks every template key as changed |
| CardState.SameConfigKeepsSubscriptions | src/card/template-gauge-card.ts:121-130 | re-applying the same configuration (primitive fields) disconnects nothing |
| CardState.StoredConfigDefaults | src/card/template-gauge-card.ts:130-138 | supplied fields override; a missing tap action is toggle and a missing hold action is more-info |
| CardState.StoredField | src/card/template-gauge-card.ts:130-138 | every field other than the two actions is stored as given |
| CardState.TemplateCard.TryConnectKey | src/card/template-gauge-card.ts:434-482 | the new bookkeeping is `ConnectKey` of the old one |
| CardState.TemplateCard.TryConnect | src/card/template-gauge-card.ts:428-432 | the new bookkeeping is `ConnectKeys` over `TEMPLATE_KEYS` |
| CardState.ConnectKeysEntries | src/card/template-gauge-card.ts:434-482 | existing entries are kept; a new entry appears exactly for a listed template key whose subscribe succeeded, with that handle |
| CardState.ConnectWhenAllSubscribed | src/card/template-gauge-card.ts:435-442 | when every template key already has an entry, connecting changes nothing |
| CardState.ConnectIdempotent | src/card/template-gauge-card.ts:428-442 | after a fully successful connect, connecting again changes nothing |
| CardState.FailedConnectShowsTemplate | src/card/template-gauge-card.ts:466-481 | a failed subscribe leaves no entry, and the field then reads as its template text |
| CardState.AllKeysListed | src/card/template-gauge-card.ts:54-62 | every template key is in `TEMPLATE_KEYS` |
| CardState.TemplateCard.TryDisconnectKey | src/card/template-gauge-card.ts:489-506 | the entry is removed per `DisconnectKey`, and the error rethrown per `Rethrown` |
| CardState.RethrowOnlyUnexpected | src/card/template-gauge-card.ts:495-505 | an error is rethrown iff the key had an entry and the code is neither not_found nor template_error; a rethrow leaves the entries unchanged |
| CardState.TemplateCard.TryDisconnect | src/card/template-gauge-card.ts:483-487 | the subscriptions become `DisconnectKeys` over `TEMPLATE_KEYS` |
| CardState.DisconnectKeysEntries | src/card/template-gauge-card.ts:483-506 | exactly the listed keys whose unsubscribe ran lose their entry |
| CardState.DisconnectAllClears | src/card/template-gauge-card.ts:483-498 | when every unsubscribe runs, no entry is left |
| CardState.TemplateCard.OnResult | src/card/template-gauge-card.ts:447-451 | a pushed result replaces its key's result |
| CardState.TemplateCard.WillUpdate | src/card/template-gauge-card.ts:160-174 | with a configuration and no results, the results come from the cache entry for the configuration's hash, else empty; otherwise nothing changes |
| CardState.TemplateCard.DisconnectedCallback | src/card/template-gauge-card.ts:146-154 | every key is disconnected; with a configuration and results, the results are cached under the hash |
| CardState.WarmStartRoundTrip | src/card/template-gauge-card.ts:146-172 | after one card's disconnectedCallback, a new card with the same configuration and no results starts, in willUpdate, from exactly the results the first card had |
| CardState.TemplateCard.Updated | src/card/template-gauge-card.ts:404-426 | without configuration or connection, nothing changes; otherwise the stops are `GradientOf` with the given info-stop test (`AsWritten` is the code at 345-347); when building them throws, the range and the subscriptions stay as they were; otherwise it records the range and connects every key |
| CardState.TemplateCard.BuildStops | src/card/template-gauge-card.ts:417-420 | the stops are built only when the gauge shows the gradient path; a TypeError from the severity levels or a stroke propagates; otherwise they are `GradientStops` of the levels over the range with the given info-stop test (`AsWritten` is the code at 345-347) |
| CardState.RenderNeedsConfigAndHost | src/card/template-gauge-card.ts:281-284 | render draws nothing iff there is no configuration or no connection |
| CardState.RenderLevelsInNeedleMode | src/card/template-gauge-card.ts:315-319 | levels reach the gauge iff in needle mode, and then no solid colour is given |
| Sorting.InsertByPermutes | src/card/template-gauge-card.ts:210 | inserting adds exactly the inserted element: the multiset grows by it and by nothing else |
| Sorting.SortByPermutes | src/card/template-gauge-card.ts:210 | sorting is a permutation: the multiset of elements is unchanged |
| Sorting.SortBySorted | src/card/template-gauge-card.ts:210 | with finite keys, the result is sorted ascending |
| Sorting.SortBySortedUnchanged | src/card/template-gauge-card.ts:210 | a list already in ascending order is left exactly as it is, so sorting twice is sorting once |
| Sorting.InsertAt | src/card/gauge.ts:99 | insertion from the right puts the element right after the last element it is not below, and before every later one, which it is below |
| Gauge.AngleFraction | src/card/gauge.ts:9-12 | the angle is 180 × the normalised value's fraction of the range |
| Gauge.AngleInHalfCircle | src/card/gauge.ts:9-12 | for a proper range, the angle lies in [0, 180] |
| Gauge.AngleAtEnds | src/card/gauge.ts:9-12 | values at or below `min` give 0; values at or above `max` give 180 |
| Gauge.AngleMonotone | src/card/gauge.ts:9-12 | the angle never decreases as the value grows |
| Gauge.NaNValueDrawnAsZero | src/card/gauge.ts:9-12 | a NaN value is drawn at the position of 0, which lies below the dial when `min` > 0 |
| Gauge.EmptyRangeNoAngle | src/card/gauge.ts:9-12 | an empty range gives a NaN angle |
| Gauge.LayerSelection | src/card/gauge.ts:77-149 | dial iff no needle or no levels; gradient path iff needle, levels and gradient; arcs only with needle and levels and no gradient; value arc iff no needle; needle iff needle; both rotated by the same angle |
| Gauge.LevelArcsShape | src/card/gauge.ts:97-124 | one arc per level in order, preceded by an info arc at `min` iff the lowest level is not `min` |
| Gauge.LevelArcsAscend | src/card/gauge.ts:97-124 | for sorted finite levels, the arc angles lie in [0, 180] and ascend |
| Gauge.InsertLevel | src/card/gauge.ts:99 | one insertion step on the array: the prefix up to i becomes the old prefix with a[i] inserted, and the rest is unchanged |
| Gauge.SortLevels | src/card/gauge.ts:99 | the array is sorted in place into `SortBy` of its old contents |
| Gauge.GaugeElement.AfterFirstRender | src/card/gauge.ts:42-50 | sets the updated flag and the angle of the current value |
| Gauge.GaugeElement.Updated | src/card/gauge.ts:65-70 | the angle is recomputed only once the updated flag is set |
| Gauge.GaugeElement.Render | src/card/gauge.ts:73-149 | in arc mode the levels array is sorted in place, otherwise left unchanged; the drawing is `DrawingOf` the element's state |
| Gauge.RenderedArcsSorted | src/card/gauge.ts:97-100 | the sorted levels are ordered and a permutation of the given ones |
| Editors.StripHelpers | src/card/template-gauge-card-editor.ts:171-174 | the helper keys are gone and every other field is kept |
| Editors.EditSeverity | src/card/template-gauge-card-editor.ts:158-174 | the in-place steps compute `SeverityEdited` |
| Editors.TemplateCardEditor.ValueChanged | src/card/template-gauge-card-editor.ts:155-177 | no helper key remains; `show_severity` folds the thresholds into `severity`; without it a truthy `severity` is removed; every other field is kept |
| Editors.SeverityEditedReads | src/card/template-gauge-card-editor.ts:158-174 | the same, about the specification function |
| Editors.FoldedReads | src/card/template-gauge-card-editor.ts:161-165 | each folded threshold is the top-level one, else the old severity one, else 0 |
| Editors.FoldKeepsNumber | src/card/template-gauge-card-editor.ts:162-164 | with no top-level threshold, a numeric old threshold is kept |
| Editors.TemplateEditRoundTrip | src/card/template-gauge-card-editor.ts:138-174 | submitting the rendered form unchanged gives back the configuration: every field except `severity` as it was; `severity` absent when it was absent, otherwise with the same three thresholds |
| Editors.ValidConfigFormReady | src/card/template-gauge-card-editor.ts:112-115 | a valid configuration, where no helper key is a base key, can be submitted through the form unchanged |
| Editors.FormDataSwitch | src/card/template-gauge-card-editor.ts:139-142 | the form data's `show_severity` is true iff the configuration has `severity`; every other field is as configured |
| Editors.TemplateSchemaSeverity | src/card/template-gauge-card-editor.ts:41-105 | the severity grid and its thresholds appear iff `showSeverity`; every other field always appears |
| Editors.TemplateCardEditor.Render | src/card/template-gauge-card-editor.ts:133-153 | the form exists with connection and configuration, and shows `severity` iff the configuration has it |
| Editors.TemplateCardEditor.SetConfig | src/card/template-gauge-card-editor.ts:112-115 | it throws iff the configuration fails the schema, and only a valid configuration is stored |
| Editors.TemplateLabels | src/card/template-gauge-card-editor.ts:117-131 | `entity` gets the entity label; custom-labelled names get their custom text; the rest get the generic text |
| Editors.ShowsConcat | src/card/editor.ts:65-179 | a concatenated schema shows a field iff one of its parts does |
| Editors.FieldItemsShow | src/card/editor.ts:66-93 | the leading items show exactly entity, value, valueText, name, min and max |
| Editors.ActionItemsShow | src/card/editor.ts:178 | the action items show exactly tap, hold and double-tap |
| Editors.SeverityGridShows | src/card/editor.ts:156-177 | the severity grid shows severity, green, yellow and red |
| Editors.GradientRowsShow | src/card/editor.ts:99-142 | the gradient row shows `gradient` iff `showGradient`, and the resolution iff also `showResolution` |
| Editors.SwitchRowsShow | src/card/editor.ts:143-154 | the `show_severity` toggle appears iff `showGradient` |
| Editors.GaugeSchemaVisibility | src/card/editor.ts:59-180 | gradient and `show_severity` iff the gradient flag; resolution iff both flags; severity grid iff the severity flag; needle and value always |
| Editors.GaugeCardProEditor.Render | src/card/editor.ts:213-237 | the gradient row and `show_severity` appear iff `needle`; the resolution select iff `needle` and `gradient`; the severity grid iff `severity` is defined |
| Editors.GaugeCardProEditor.SetConfig | src/card/editor.ts:187-190 | it throws iff the validator rejects the configuration, and only an accepted configuration is stored |
| Editors.ResolutionOptionsKnown | src/card/editor.ts:113-132 | the select offers exactly the names the resolution table and the schema accept |
| Editors.GaugeCardProEditor.ValueChanged | src/card/editor.ts:239-272 | severity as in the template editor; with `gradient`, the resolution is kept if truthy, else "medium"; without it, the resolution is removed; every other field is kept |
| Editors.GaugeEditedReads | src/card/editor.ts:239-272 | the same, about the specification function |
| Editors.GradientEditedReads | src/card/editor.ts:261-269 | the gradient step alone: resolution defaulted or removed, and everything else kept |
| Editors.GaugeEditRoundTrip | src/card/editor.ts:223-269 | submitting the rendered form unchanged gives back every field except `severity` and `gradientResolution`; the resolution is defaulted or removed per `gradient`; the thresholds are kept |
| ElementEditor.Editor.GetYaml | src/mushroom/utils/lovelace/element-editor.ts:76-81 | a non-empty cached text is returned unchanged; otherwise the configuration is dumped and cached |
| ElementEditor.Editor.SetYaml | src/mushroom/utils/lovelace/element-editor.ts:83-92 | an empty text reloads the dump; a parse error keeps the configuration, records exactly that message and announces it with GUI mode unavailable; a successful parse replaces the configuration |
| ElementEditor.Editor.SetValue | src/mushroom/utils/lovelace/element-editor.ts:98-106 | an equal configuration changes nothing; any other replaces it, drops the YAML cache and announces the change |
| ElementEditor.Editor.FireConfigChanged | src/mushroom/utils/lovelace/element-editor.ts:117-126 | the event carries the configuration, the errors joined by ", ", and GUI-mode availability |
| ElementEditor.Editor.SetConfig | src/mushroom/utils/lovelace/element-editor.ts:108-127 | with errors present, the element is not updated; the event is fired either way |
| ElementEditor.Editor.SetGuiMode | src/mushroom/utils/lovelace/element-editor.ts:141-151 | sets the mode and announces it with the availability |
| ElementEditor.Editor.ToggleMode | src/mushroom/utils/lovelace/element-editor.ts:153-155 | flips the mode |
| ElementEditor.Editor.UpdateStart | src/mushroom/utils/lovelace/element-editor.ts:283-308 | a falsy configuration does nothing; a type change resets support and the element; a missing type is an error with GUI mode off; a new type starts loading; with an unchanged type, an element that accepts leaves no errors or warnings and the mode as it was, an element that rejects sets its warnings (or the message) and errors and turns GUI mode off, and no element turns GUI mode off |
| ElementEditor.Editor.UpdateResume | src/mushroom/utils/lovelace/element-editor.ts:308-350 | a loaded editor is installed as supported; a rejection sets its warnings (or the message) and errors and turns GUI mode off; acceptance keeps errors, warnings and mode; no element turns GUI mode off and keeps errors and warnings; loading ends |
| ElementEditor.Editor.ApplyToElement | src/mushroom/utils/lovelace/element-editor.ts:324-350 | a rejection gives its warnings (default "Config is not supported") and errors, with GUI mode off; no element forces GUI mode off; loading is false afterwards |
| ElementEditor.Editor.HandleYamlChanged | src/mushroom/utils/lovelace/element-editor.ts:275-281 | only a text different from the current YAML is set |
| BaseCard.Card.SetConfig | src/mushroom/utils/base-card.ts:33-43 | the stored configuration is the given one merged over the more-info defaults |
| BaseCard.WithDefaults | src/mushroom/utils/base-card.ts:33-43 | the stored keys are the given ones plus both actions |
| BaseCard.DefaultsAndOverrides | src/mushroom/utils/base-card.ts:33-43 | supplied fields override; a missing action is more-info |
| BaseCard.BaseField | src/mushroom/utils/base-card.ts:33-43 | every field other than the two actions is stored as given |
| BaseCard.TemplateCardDefaultsDiffer | src/card/template-gauge-card.ts:130-138 | the template card stores configurations like the base card, except that a missing tap action toggles rather than opening more-info |
| BaseCard.Card.StateObj | src/mushroom/utils/base-card.ts:22-27 | undefined without a configuration, a connection or a truthy entity; otherwise the state stored under the entity id |
| BaseCard.ComputeDarkMode | src/mushroom/utils/base-card.ts:9-12 | false without a connection; a TypeError iff the themes are null or undefined; otherwise the themes' `darkMode` as stored |

## Left out

- Rendering is not modelled: Lit templates, SVG path strings, arc endpoint trigonometry, CSS, `_rescaleSvg`, the drawing done by `GradientPath`, and the action handler. They are layout and DOM.
- Numbers are reals with an explicit NaN. Infinities, float rounding and the text form of numbers are not modelled. `String(n)` and `Number(s)` are a host formatter and parser. `CardTemplates` relies on the formatter's text reading back as the same number, never being empty and never containing `{`.
- Subscriptions are not modelled as promises. Their callbacks and interleavings become explicit outcomes: a subscribe either succeeds with a handle or fails, and an unsubscribe either runs or rejects with a code. Each connect or disconnect is one sequential step.
- `CardState.TemplateCard.SetConfig`: a structured field (array or object) is always treated as changed, as two separately parsed configurations never share objects.
- `CacheManager` eviction is not modelled (it holds 1000 entries); its source is not part of this model. `object-hash` is an opaque hash function parameter.
- `normalize` and `getValueInPercentage` come from the host library, which is not part of this model. `Gauge.Normalize` and `Gauge.Percentage` state the assumed clamp and linear behaviour.
- `getComputedStyle` resolution of `var(--x)` colours is an opaque function parameter.
- `CardSeverity.SortSegments`: when a sort key is NaN, JavaScript's sort order is implementation-defined; the model fixes one stable order. The colour stated by `CardSeverity.SegmentColourIsGreatestAtOrBelow` assumes numeric `from`s.
- Localisation is not modelled: labels are the keys the editor passes to the translators. The host's `handleStructError` becomes the `Rejection` parameter.
- `guageCardProConfigStruct` is defined in a file that is not part of this model. `Editors.GaugeCardProEditor.SetConfig` takes it as a validator parameter. The base schema and action struct of `templateCardConfigStruct` are the `External` parameter.
- `computeActionsFormSchema` is modelled as the three action selectors it produces.
- `Editors.TemplateCardEditor.ValueChanged`: `_valueChanged` deletes keys in place on the object the form handed it. The model returns a new configuration, so the aliasing with the form's data is not captured.
- `Editors.GaugeCardProEditor.ValueChanged`: `_valueChanged` in `src/card/editor.ts` deletes the severity, helper and resolution keys in place too. The model returns a new configuration, so the aliasing is not captured here either.
- `ElementEditor.Editor.SetValue`: `deepEqual` is modelled as structural equality of values.
- `ElementEditor.Editor.SetConfig`: the `catch` around `_updateConfigElement` never fires, since an async function reports failures through its promise. The model omits it.
- `ElementEditor.Editor.UpdateStart`: `_updateConfigElement` is split at its one `await`. What runs between the halves (other setters) is not constrained.
- The element editor's `render`, `focusYamlEditor`, `updated` and `_handleUIConfigChanged` are not modelled separately. The last is a plain `value` assignment, which `SetValue` models.
- `BaseCard.ComputeDarkMode`: the theme's `darkMode` flag is returned as stored. Its type cast is not checked.
- `CardSeverity.SeverityLevels`: each level is the `from` (or legacy threshold) converted to a number. `_severityLevels` keeps the raw value, and `level += min * -1` on a string `from` concatenates text. So a `from` of "20" with min 10 gives the text "20-10" and a NaN position in the source, and with min 0 it gives "200" and position 2; the model gives 0.1 and 0.2. A string `from` can come from a template result, and also from a configuration that did not pass the editor's schema: the card's own `setConfig` does not validate.
- `CardState.Changed`: the entity test `_config?.entity != config.entity` is modelled as strict equality or both nullish. JavaScript's `!=` also converts between numbers, strings and booleans, so an entity `5` replaced by `"5"` keeps the subscriptions in the source but disconnects every key in the model. Entity ids are strings in practice.
- `Gauge.LevelArcsShape`: the gauge compares the lowest level with `level.level !== this.min` (gauge.ts:102). A level that is a string, such as a `from` of "0" with min 0, is never strictly equal to the number, so the source always draws the info arc for it. The model's levels are numbers, so a level equal to `min` draws no info arc.
- `CardGradient.StopColour`: a stroke that is not a string is a TypeError. An array stroke from a template result has its own `includes`, so the source pushes the array as the colour instead of throwing; the model does not capture that case.
- `CardSeverity.EntryValid`: a legacy key counts as valid only when it is one of red, green, yellow and normal. In the source, `SEVERITY_MAP[k] == null` also passes keys inherited from `Object.prototype`, such as "constructor" or "toString", which a template result could supply. The model treats those keys as invalid.
- `CardSeverity.SegmentColourIsGreatestAtOrBelow`, `CardSeverity.ItemsScanGreatest`, `CardSeverity.SortedScanGreatest`: the lemmas state that the colour comes from a segment with the greatest `from` at or below the value. When several segments share that `from`, the stable sort makes the last configured one win. The lemmas do not state which one.
- `CardState.TemplateCard.Updated`: `_renderGradient` returns before reading the levels until the gauge has rendered its `#gradient-path` element (template-gauge-card.ts:328-333). The model takes that element to exist exactly when `needle` and `gradient` are both truthy, as the gauge draws it.
- `BaseCard.Card.StateObj`: an entity id that is not a string finds no state.
- `src/main.ts` (a version banner) and `src/card/_const.ts` (a copy of the constants under another card name) are not modelled.

## Findings

| source | as written | input that shows it | evidently intended | confidence | as-written member | corrected member |
|---|---|---|---|---|---|---|
| src/card/template-gauge-card.ts:345-349 | the level is shifted by `-min` and then compared with `min`, so the info stop is added iff level > 2·min | min 10, max 100, levels 20 (red) and 60 (green): no info stop is added, and the gradient is red from 0 although the first level starts at 20. Also min −10 with a level at −10: an extra info stop is added at 0 | add the info stop iff the first kept level is above `min`, i.e. the shifted level is above 0 | not executed | CardGradient.InfoStopMissedAboveMin | CardGradient.IntendedInfoRule |

`CardGradient.AsWrittenInfoRule` proves the general form of the as-written
test. `CardGradient.InfoStopAddedOnMin` shows the opposite error. The card
model's gradient members, `CardState.GradientOf`,
`CardState.TemplateCard.BuildStops` and `CardState.TemplateCard.Updated`,
take the test as a parameter: with `AsWritten` they are the program as it
is, and with `Intended` they draw the corrected gradient. Every property
of the stops (`CardGradient.GradientShape`,
`CardGradient.GradientSortedInUnit`) holds for both.
