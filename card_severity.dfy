/** The colour the template gauge card gives its value arc, and the level
    list it hands to the gauge in needle mode. Both read either the sorted
    threshold list `segments` or the legacy three-band map `severity`; a
    truthy template result overrides the configured field. */
module CardSeverity {
  import opened Js
  import opened Sorting
  import opened Constants
  import opened CardTemplates
  import ConfigSchema

  /** getSeverity. `Object(x)` wraps a primitive result; every operation
      the card applies to it afterwards (keys, entries, iteration, `map`)
      behaves on the wrapper as on x, so x stands for it. */
  function GetSeverity(config: Fields, results: Option<TemplateResults>): JsValue
  {
    var t := ResultOf(results, SeverityTemplateKey);
    if Truthy(t) then t else Get(config, "severity")
  }

  /** getSegments, in the same way. */
  function GetSegments(config: Fields, results: Option<TemplateResults>): JsValue
  {
    var t := ResultOf(results, SegmentsTemplateKey);
    if Truthy(t) then t else Get(config, "segments")
  }

  // ---------------------------------------------------------------------
  // The segment list

  /** A segment as the scan reads it: `from` as a number, `color` as it is. */
  datatype Segment = Segment(from: Num, color: JsValue)

  function AsSegment(h: Host, item: JsValue): Segment
  {
    Segment(ToNumber(h, Prop(item, "from")), Prop(item, "color"))
  }

  const FromKey: Segment -> Num := (s: Segment) => s.from

  function SegmentsOf(h: Host, items: seq<JsValue>): (segs: seq<Segment>)
    ensures |segs| == |items|
    ensures forall i :: 0 <= i < |items| ==> segs[i] == AsSegment(h, items[i])
  {
    seq(|items|, i requires 0 <= i < |items| => AsSegment(h, items[i]))
  }

  /** The items other than undefined, in order. */
  function Defined(items: seq<JsValue>): (d: seq<JsValue>)
    ensures |d| <= |items|
    ensures forall x :: x in d <==> x in items && !x.Undefined?
    ensures (forall i :: 0 <= i < |items| ==> !items[i].Undefined?) ==> d == items
  {
    if items == [] then []
    else if items[0].Undefined? then Defined(items[1..])
    else [items[0]] + Defined(items[1..])
  }

  /** Dropping undefined items from two lists joined is dropping them from
      each and joining: the kept items stay in their order. */
  lemma {:induction false} DefinedConcat(a: seq<JsValue>, b: seq<JsValue>)
    ensures Defined(a + b) == Defined(a) + Defined(b)
    decreases |a|
  {
    if a == [] {
      assert a + b == b;
    } else {
      assert (a + b)[0] == a[0];
      assert (a + b)[1..] == a[1..] + b;
      DefinedConcat(a[1..], b);
    }
  }

  /** A single item is kept iff it is not undefined. */
  lemma DefinedSingle(x: JsValue)
    ensures Defined([x]) == if x.Undefined? then [] else [x]
  {
    assert [x][1..] == [];
  }

  /** `[...items].sort((a, b) => a.from - b.from)`, each item read through
      AsSegment. Undefined items go last without being compared. Once two
      or more items are compared, every one of them is, so a null item
      among them makes the comparator read a property of null. */
  function SortSegments(h: Host, items: seq<JsValue>): (r: Outcome<seq<Segment>>)
    ensures r.Ok? ==> |r.value| == |items|
  {
    var d := Defined(items);
    if |d| >= 2 && Null in d then TypeError
    else
      Ok(SortBy(SegmentsOf(h, d), FromKey) + seq(|items| - |d|, _ => Segment(NaN, Undefined)))
  }

  /** The scan's test at index i: the value is at or above this segment's
      `from` and, unless it is the last, below the next one's. A falsy
      item has no `from`, so the test fails for it as the guard does. */
  predicate Matches(segs: seq<Segment>, v: Num, i: nat)
    requires i < |segs|
  {
    NumGe(v, segs[i].from) && (i + 1 == |segs| || NumLt(v, segs[i + 1].from))
  }

  /** The first index at or after i that passes the test. */
  function FirstMatchFrom(segs: seq<Segment>, v: Num, i: nat): (r: Option<nat>)
    requires i <= |segs|
    decreases |segs| - i
    ensures r.Some? ==> i <= r.value < |segs| && Matches(segs, v, r.value)
    ensures r.Some? ==> forall j :: i <= j < r.value ==> !Matches(segs, v, j)
    ensures r.None? ==> forall j :: i <= j < |segs| ==> !Matches(segs, v, j)
  {
    if i == |segs| then None
    else if Matches(segs, v, i) then Some(i)
    else FirstMatchFrom(segs, v, i + 1)
  }

  /** The colour the scan returns: the first matching segment's colour,
      or the normal colour. */
  function SegmentColour(p: Palette, segs: seq<Segment>, v: Num): JsValue
  {
    match FirstMatchFrom(segs, v, 0)
    case Some(i) => segs[i].color
    case None => Str(p.info)
  }

  // ---------------------------------------------------------------------
  // The legacy severity map

  function Threshold(h: Host, e: Field): Num
  {
    ToNumber(h, e.val)
  }

  function ThresholdKey(h: Host): Field -> Num
  {
    e => Threshold(h, e)
  }

  /** An entry passes the validity loop: its key is a SEVERITY_MAP name and
      its threshold is not NaN. */
  predicate EntryValid(h: Host, e: Field)
  {
    e.name in SEVERITY_NAMES && Threshold(h, e).Fin?
  }

  predicate AllValid(h: Host, es: seq<Field>)
  {
    forall i :: 0 <= i < |es| ==> EntryValid(h, es[i])
  }

  /** SEVERITY_MAP[name], undefined for any other name. */
  function ColourOf(p: Palette, name: string): JsValue
  {
    match SeverityColour(p, name)
    case Some(c) => Str(c)
    case None => Undefined
  }

  /** The three band tests on the sorted entries; reading an entry past the
      end of the list is a TypeError. */
  function LegacyBands(h: Host, p: Palette, s: seq<Field>, v: Num): Outcome<JsValue>
  {
    if |s| == 0 then TypeError
    else if NumGe(v, Threshold(h, s[0])) && |s| < 2 then TypeError
    else if NumGe(v, Threshold(h, s[0])) && NumLt(v, Threshold(h, s[1])) then Ok(ColourOf(p, s[0].name))
    else if |s| < 2 then TypeError
    else if NumGe(v, Threshold(h, s[1])) && |s| < 3 then TypeError
    else if NumGe(v, Threshold(h, s[1])) && NumLt(v, Threshold(h, s[2])) then Ok(ColourOf(p, s[1].name))
    else if |s| < 3 then TypeError
    else if NumGe(v, Threshold(h, s[2])) then Ok(ColourOf(p, s[2].name))
    else Ok(Str(p.info))
  }

  // ---------------------------------------------------------------------
  // _computeSeverity

  /** What `_computeSeverity(v)` returns: undefined in needle mode, else
      the colour from the segments, else from the legacy map. */
  function SeveritySpec(h: Host, p: Palette, config: Fields, results: Option<TemplateResults>, v: Num): Outcome<JsValue>
  {
    if Truthy(Get(config, "needle")) then Ok(Undefined)
    else
      var segments := GetSegments(config, results);
      if Truthy(segments) then
        match Iterate(segments)
        case TypeError => TypeError
        case Ok(items) =>
          match SortSegments(h, items)
          case TypeError => TypeError
          case Ok(segs) => Ok(SegmentColour(p, segs, v))
      else
        var sections := GetSeverity(config, results);
        if !Truthy(sections) then Ok(Str(p.info))
        else
          var es := Entries(sections);
          if !AllValid(h, es) then Ok(Str(p.info))
          else LegacyBands(h, p, SortBy(es, ThresholdKey(h)), v)
  }

  method ComputeSeverity(h: Host, p: Palette, config: Fields, results: Option<TemplateResults>, v: Num)
    returns (r: Outcome<JsValue>)
    ensures r == SeveritySpec(h, p, config, results, v)
  {
    if Truthy(Get(config, "needle")) {
      return Ok(Undefined);
    }
    var segments := GetSegments(config, results);
    if Truthy(segments) {
      var items := Iterate(segments);
      if items.TypeError? {
        return TypeError;
      }
      var sorted := SortSegments(h, items.value);
      if sorted.TypeError? {
        return TypeError;
      }
      var segs := sorted.value;
      var i := 0;
      while i < |segs|
        invariant 0 <= i <= |segs|
        invariant FirstMatchFrom(segs, v, 0) == FirstMatchFrom(segs, v, i)
      {
        if Matches(segs, v, i) {
          return Ok(segs[i].color);
        }
        i := i + 1;
      }
      return Ok(Str(p.info));
    }
    var sections := GetSeverity(config, results);
    if !Truthy(sections) {
      return Ok(Str(p.info));
    }
    var sortable := Entries(sections);
    var i := 0;
    while i < |sortable|
      invariant 0 <= i <= |sortable|
      invariant forall j :: 0 <= j < i ==> EntryValid(h, sortable[j])
    {
      if !EntryValid(h, sortable[i]) {
        return Ok(Str(p.info));
      }
      i := i + 1;
    }
    sortable := SortBy(sortable, ThresholdKey(h));
    r := LegacyBands(h, p, sortable, v);
  }

  // ---------------------------------------------------------------------
  // _severityLevels

  /** One level handed to the gauge: a threshold and its stroke colour. */
  datatype Level = Level(level: Num, stroke: JsValue)

  /** `_severityLevels()`: one level per segment (a segments value without
      `map` raises a TypeError), else one per legacy entry, else a single
      normal-coloured level at 0. */
  function SeverityLevels(h: Host, p: Palette, config: Fields, results: Option<TemplateResults>): Outcome<seq<Level>>
  {
    var segments := GetSegments(config, results);
    if Truthy(segments) then
      if segments.Arr? then
        var items := segments.items;
        Ok(seq(|items|, i requires 0 <= i < |items| =>
          Level(AsSegment(h, items[i]).from, AsSegment(h, items[i]).color)))
      else TypeError
    else
      var sections := GetSeverity(config, results);
      if !Truthy(sections) then Ok([Level(Fin(0.0), Str(p.info))])
      else
        var es := Entries(sections);
        Ok(seq(|es|, i requires 0 <= i < |es| => Level(Threshold(h, es[i]), ColourOf(p, es[i].name))))
  }

  // ---------------------------------------------------------------------
  // Properties

  /** From an index whose `from` the value reaches, the scan finds a match
      when every `from` is a number. */
  lemma {:induction false} MatchAtOrAfter(segs: seq<Segment>, v: Num, i: nat)
    requires AllFinite(segs, FromKey)
    requires i < |segs| && NumGe(v, segs[i].from)
    ensures FirstMatchFrom(segs, v, i).Some?
    decreases |segs| - i
  {
    if !Matches(segs, v, i) {
      assert FromKey(segs[i + 1]).Fin?;
      MatchAtOrAfter(segs, v, i + 1);
    }
  }

  /** On a list sorted by `from`, the scan picks the last segment whose
      `from` the value reaches, and finds none exactly when the value is
      below every `from`. */
  lemma SortedScan(segs: seq<Segment>, v: Num)
    requires AllFinite(segs, FromKey) && SortedBy(segs, FromKey) && v.Fin?
    ensures FirstMatchFrom(segs, v, 0).None? <==> forall j :: 0 <= j < |segs| ==> v.r < segs[j].from.r
    ensures forall k :: 0 <= k < |segs| ==>
      (FirstMatchFrom(segs, v, 0) == Some(k) <==>
        segs[k].from.r <= v.r && forall j :: k < j < |segs| ==> v.r < segs[j].from.r)
  {
    assert forall j :: 0 <= j < |segs| ==> FromKey(segs[j]) == segs[j].from;
    var r := FirstMatchFrom(segs, v, 0);
    if r.Some? {
      AfterMatchAbove(segs, v, r.value);
    } else {
      NoMatchAllAbove(segs, v);
    }
    forall k | 0 <= k < |segs| && segs[k].from.r <= v.r && (forall j :: k < j < |segs| ==> v.r < segs[j].from.r)
      ensures r == Some(k)
    {
      assert Matches(segs, v, k);
    }
  }

  predicate FiniteFroms(segs: seq<Segment>)
  {
    forall i :: 0 <= i < |segs| ==> segs[i].from.Fin?
  }

  lemma FiniteFromsKey(segs: seq<Segment>)
    ensures FiniteFroms(segs) <==> AllFinite(segs, FromKey)
  {
    assert forall i :: 0 <= i < |segs| ==> FromKey(segs[i]) == segs[i].from;
  }

  /** On the segment path, the colour is the scan over the sorted list. */
  lemma SegmentPath(h: Host, p: Palette, config: Fields, results: Option<TemplateResults>,
                    items: seq<JsValue>, segs: seq<Segment>, v: Num)
    requires !Truthy(Get(config, "needle"))
    requires GetSegments(config, results) == Arr(items) && SortSegments(h, items) == Ok(segs)
    ensures SeveritySpec(h, p, config, results, v) == Ok(SegmentColour(p, segs, v))
  {
  }

  /** Items that all carry a numeric `from`. */
  predicate NumericFroms(items: seq<JsValue>)
  {
    forall i :: 0 <= i < |items| ==> ConfigSchema.IsNumber(Prop(items[i], "from"))
  }

  /** The items' `from`s as numbers, when every one is a number. */
  function FromValues(h: Host, items: seq<JsValue>): (fr: seq<real>)
    requires NumericFroms(items)
    ensures |fr| == |items|
    ensures forall i :: 0 <= i < |items| ==> AsSegment(h, items[i]).from == Fin(fr[i])
  {
    seq(|items|, i requires 0 <= i < |items| => AsSegment(h, items[i]).from.r)
  }

  lemma SortSegmentsNumeric(h: Host, items: seq<JsValue>)
    requires NumericFroms(items)
    ensures AllFinite(SegmentsOf(h, items), FromKey)
    ensures SortSegments(h, items) == Ok(SortBy(SegmentsOf(h, items), FromKey))
  {
    assert forall i :: 0 <= i < |items| ==> items[i].Obj?;
    assert Defined(items) == items;
    var s := SortBy(SegmentsOf(h, items), FromKey);
    assert s + [] == s;
  }

  /** An element of a sequence sits at some index of any permutation of it. */
  lemma PermIndex<T>(a: seq<T>, b: seq<T>, m: nat) returns (i: nat)
    requires multiset(a) == multiset(b) && m < |a|
    ensures i < |b| && b[i] == a[m]
  {
    assert a[m] in multiset(b);
    i :| 0 <= i < |b| && b[i] == a[m];
  }

  /** On a list sorted by `from`, every segment after a match lies above
      the value. */
  lemma AfterMatchAbove(segs: seq<Segment>, v: Num, k: nat)
    requires AllFinite(segs, FromKey) && SortedBy(segs, FromKey)
    requires k < |segs| && Matches(segs, v, k)
    ensures forall j :: k < j < |segs| ==> v.r < segs[j].from.r
  {
    forall j | k < j < |segs| ensures v.r < segs[j].from.r {
      assert FromKey(segs[j]) == segs[j].from && FromKey(segs[k + 1]) == segs[k + 1].from;
      assert !Before(FromKey(segs[j]), FromKey(segs[k + 1]));
    }
  }

  /** On a list sorted by `from`, the scan finds no match only when the
      value is below every `from`. */
  lemma NoMatchAllAbove(segs: seq<Segment>, v: Num)
    requires AllFinite(segs, FromKey) && SortedBy(segs, FromKey) && v.Fin?
    requires FirstMatchFrom(segs, v, 0).None?
    ensures forall j :: 0 <= j < |segs| ==> v.r < segs[j].from.r
  {
    forall j | 0 <= j < |segs| ensures v.r < segs[j].from.r {
      if segs[j].from.r <= v.r {
        assert FromKey(segs[j]) == segs[j].from && FromKey(segs[0]) == segs[0].from;
        assert j > 0 ==> !Before(FromKey(segs[j]), FromKey(segs[0]));
        MatchAtOrAfter(segs, v, 0);
      }
    }
  }

  /** Scanning a permutation of the segments sorted by `from` finds a
      segment whose `from` is the greatest one at or below the value, and
      finds none exactly when the value is below every `from`. */
  lemma SortedScanGreatest(segs0: seq<Segment>, segs: seq<Segment>, v: Num)
    requires multiset(segs) == multiset(segs0)
    requires FiniteFroms(segs0) && AllFinite(segs, FromKey) && SortedBy(segs, FromKey) && v.Fin?
    ensures FirstMatchFrom(segs, v, 0).None? <==> forall i :: 0 <= i < |segs0| ==> v.r < segs0[i].from.r
    ensures FirstMatchFrom(segs, v, 0).Some? ==>
      exists k :: 0 <= k < |segs0| && segs[FirstMatchFrom(segs, v, 0).value] == segs0[k]
        && segs0[k].from.r <= v.r
        && (forall j :: 0 <= j < |segs0| && segs0[j].from.r <= v.r ==> segs0[j].from.r <= segs0[k].from.r)
  {
    var r := FirstMatchFrom(segs, v, 0);
    if r.Some? {
      var kk := r.value;
      AfterMatchAbove(segs, v, kk);
      var k := PermIndex(segs, segs0, kk);
      forall j | 0 <= j < |segs0| && segs0[j].from.r <= v.r ensures segs0[j].from.r <= segs0[k].from.r {
        var m := PermIndex(segs0, segs, j);
        assert m <= kk;
        assert FromKey(segs[kk]) == segs[kk].from && FromKey(segs[m]) == segs[m].from;
        assert m < kk ==> !Before(FromKey(segs[kk]), FromKey(segs[m]));
      }
    } else {
      NoMatchAllAbove(segs, v);
      forall j | 0 <= j < |segs0| ensures v.r < segs0[j].from.r {
        var m := PermIndex(segs0, segs, j);
      }
    }
  }

  /** Sorting segments with numeric `from`s by `from` reorders them into
      ascending order. */
  lemma SortedFroms(h: Host, items: seq<JsValue>)
    requires NumericFroms(items)
    ensures var segs0 := SegmentsOf(h, items);
      var segs := SortBy(segs0, FromKey);
      && multiset(segs) == multiset(segs0)
      && FiniteFroms(segs0) && AllFinite(segs, FromKey) && SortedBy(segs, FromKey)
  {
    var segs0 := SegmentsOf(h, items);
    SortSegmentsNumeric(h, items);
    SortBySorted(segs0, FromKey);
    SortByPermutes(segs0, FromKey);
    SortByFinite(segs0, FromKey);
    FiniteFromsKey(segs0);
  }

  /** The scan over items with numeric `from`s, sorted, picks the colour
      of an item whose `from` is the greatest one at or below the value,
      and the normal colour when the value is below every `from`. */
  lemma ItemsScanGreatest(h: Host, p: Palette, items: seq<JsValue>, v: Num)
    requires NumericFroms(items) && v.Fin?
    ensures var c := SegmentColour(p, SortBy(SegmentsOf(h, items), FromKey), v);
      var fr := FromValues(h, items);
      && ((forall i :: 0 <= i < |items| ==> v.r < fr[i]) ==> c == Str(p.info))
      && ((exists i :: 0 <= i < |items| && fr[i] <= v.r) ==>
          exists k :: 0 <= k < |items|
            && c == Prop(items[k], "color")
            && fr[k] <= v.r
            && forall j :: 0 <= j < |items| && fr[j] <= v.r ==> fr[j] <= fr[k])
  {
    var fr := FromValues(h, items);
    var segs0 := SegmentsOf(h, items);
    var segs := SortBy(segs0, FromKey);
    SortedFroms(h, items);
    SortedScanGreatest(segs0, segs, v);
    assert forall i :: 0 <= i < |items| ==> segs0[i].from.r == fr[i];
    if exists i :: 0 <= i < |items| && fr[i] <= v.r {
      ItemsScanMatch(h, p, items, v);
    }
  }

  /** The match half of ItemsScanGreatest: some `from` at or below the
      value makes the scan pick a greatest one. */
  lemma ItemsScanMatch(h: Host, p: Palette, items: seq<JsValue>, v: Num)
    requires NumericFroms(items) && v.Fin?
    requires exists i :: 0 <= i < |items| && FromValues(h, items)[i] <= v.r
    ensures var c := SegmentColour(p, SortBy(SegmentsOf(h, items), FromKey), v);
      var fr := FromValues(h, items);
      exists k :: 0 <= k < |items|
        && c == Prop(items[k], "color")
        && fr[k] <= v.r
        && forall j :: 0 <= j < |items| && fr[j] <= v.r ==> fr[j] <= fr[k]
  {
    var fr := FromValues(h, items);
    var segs0 := SegmentsOf(h, items);
    var segs := SortBy(segs0, FromKey);
    SortedFroms(h, items);
    var i :| 0 <= i < |items| && fr[i] <= v.r;
    assert segs0[i].from.r <= v.r;
    var k := ScanPick(p, segs0, segs, v, i);
    assert segs0[k].color == Prop(items[k], "color");
    forall j | 0 <= j < |items| && fr[j] <= v.r ensures fr[j] <= fr[k] {
      assert segs0[j].from.r == fr[j];
    }
  }

  /** The segment the scan over the sorted permutation picks, as an index
      of the unsorted list, when some `from` is at or below the value. */
  lemma ScanPick(p: Palette, segs0: seq<Segment>, segs: seq<Segment>, v: Num, i: nat) returns (k: nat)
    requires multiset(segs) == multiset(segs0)
    requires FiniteFroms(segs0) && AllFinite(segs, FromKey) && SortedBy(segs, FromKey) && v.Fin?
    requires i < |segs0| && segs0[i].from.r <= v.r
    ensures k < |segs0| && SegmentColour(p, segs, v) == segs0[k].color && segs0[k].from.r <= v.r
    ensures forall j :: 0 <= j < |segs0| && segs0[j].from.r <= v.r ==> segs0[j].from.r <= segs0[k].from.r
  {
    SortedScanGreatest(segs0, segs, v);
    var r := FirstMatchFrom(segs, v, 0);
    assert r.Some?;
    k :| 0 <= k < |segs0| && segs[r.value] == segs0[k]
      && segs0[k].from.r <= v.r
      && (forall j :: 0 <= j < |segs0| && segs0[j].from.r <= v.r ==> segs0[j].from.r <= segs0[k].from.r);
  }

  /** Outside needle mode, a segment list with numeric `from`s colours the
      value with a segment whose `from` is the greatest one at or below the
      value, and with the normal colour when the value is below every
      `from`. */
  lemma SegmentColourIsGreatestAtOrBelow(h: Host, p: Palette, config: Fields, results: Option<TemplateResults>,
                                         items: seq<JsValue>, v: Num)
    requires !Truthy(Get(config, "needle"))
    requires GetSegments(config, results) == Arr(items) && NumericFroms(items)
    requires v.Fin?
    ensures SeveritySpec(h, p, config, results, v).Ok?
    ensures var fr := FromValues(h, items);
      (forall i :: 0 <= i < |items| ==> v.r < fr[i]) ==> SeveritySpec(h, p, config, results, v) == Ok(Str(p.info))
    ensures var fr := FromValues(h, items);
      (exists i :: 0 <= i < |items| && fr[i] <= v.r) ==>
        exists k :: 0 <= k < |items|
          && SeveritySpec(h, p, config, results, v) == Ok(Prop(items[k], "color"))
          && fr[k] <= v.r
          && forall j :: 0 <= j < |items| && fr[j] <= v.r ==> fr[j] <= fr[k]
  {
    SortSegmentsNumeric(h, items);
    SegmentPath(h, p, config, results, items, SortBy(SegmentsOf(h, items), FromKey), v);
    ItemsScanGreatest(h, p, items, v);
  }

  /** On the legacy path with every entry valid, the colour is the band
      lookup on the entries sorted by threshold. */
  lemma LegacyPath(h: Host, p: Palette, config: Fields, results: Option<TemplateResults>, v: Num)
    requires !Truthy(Get(config, "needle")) && !Truthy(GetSegments(config, results))
    requires Truthy(GetSeverity(config, results))
    requires AllValid(h, Entries(GetSeverity(config, results)))
    ensures SeveritySpec(h, p, config, results, v)
         == LegacyBands(h, p, SortBy(Entries(GetSeverity(config, results)), ThresholdKey(h)), v)
  {
  }

  /** Sorting valid entries keeps them valid and orders their thresholds. */
  lemma SortedEntries(h: Host, es: seq<Field>)
    requires AllValid(h, es)
    ensures var s := SortBy(es, ThresholdKey(h));
      && multiset(s) == multiset(es)
      && AllValid(h, s)
      && forall i, j :: 0 <= i < j < |s| ==> Threshold(h, s[i]).r <= Threshold(h, s[j]).r
  {
    var s := SortBy(es, ThresholdKey(h));
    assert forall i :: 0 <= i < |es| ==> ThresholdKey(h)(es[i]) == Threshold(h, es[i]);
    SortBySorted(es, ThresholdKey(h));
    SortByPermutes(es, ThresholdKey(h));
    forall i | 0 <= i < |s| ensures EntryValid(h, s[i]) {
      var j := PermIndex(s, es, i);
    }
    forall i, j | 0 <= i < j < |s| ensures Threshold(h, s[i]).r <= Threshold(h, s[j]).r {
      assert !Before(ThresholdKey(h)(s[j]), ThresholdKey(h)(s[i]));
    }
  }

  /** Legacy map with exactly three valid entries: with the thresholds
      sorted ascending as t0 <= t1 <= t2, [t0, t1) takes the first key's
      colour, [t1, t2) the second's, from t2 up the third's, and below t0
      the normal colour. */
  lemma LegacyThreeBands(h: Host, p: Palette, config: Fields, results: Option<TemplateResults>, v: Num)
    requires !Truthy(Get(config, "needle")) && !Truthy(GetSegments(config, results))
    requires |Entries(GetSeverity(config, results))| == 3
    requires AllValid(h, Entries(GetSeverity(config, results)))
    requires v.Fin?
    ensures var es := Entries(GetSeverity(config, results));
      var s := SortBy(es, ThresholdKey(h));
      var r := SeveritySpec(h, p, config, results, v);
      && multiset(s) == multiset(es)
      && AllValid(h, s)
      && Threshold(h, s[0]).r <= Threshold(h, s[1]).r <= Threshold(h, s[2]).r
      && (v.r < Threshold(h, s[0]).r ==> r == Ok(Str(p.info)))
      && (Threshold(h, s[0]).r <= v.r < Threshold(h, s[1]).r ==> r == Ok(ColourOf(p, s[0].name)))
      && (Threshold(h, s[1]).r <= v.r < Threshold(h, s[2]).r ==> r == Ok(ColourOf(p, s[1].name)))
      && (Threshold(h, s[2]).r <= v.r ==> r == Ok(ColourOf(p, s[2].name)))
  {
    var sections := GetSeverity(config, results);
    assert Truthy(sections) by {
      match sections
      case Str(t) => assert |Keys(sections)| == |t|;
      case _ =>
    }
    LegacyPath(h, p, config, results, v);
    SortedEntries(h, Entries(sections));
  }

  /** The legacy branch is only defined for three or more entries: with
      fewer valid entries it raises a TypeError, except with exactly two
      entries and the value in [t0, t1). */
  lemma LegacyFewerThanThree(h: Host, p: Palette, config: Fields, results: Option<TemplateResults>, v: Num)
    requires !Truthy(Get(config, "needle")) && !Truthy(GetSegments(config, results))
    requires Truthy(GetSeverity(config, results))
    requires |Entries(GetSeverity(config, results))| < 3
    requires AllValid(h, Entries(GetSeverity(config, results)))
    ensures var s := SortBy(Entries(GetSeverity(config, results)), ThresholdKey(h));
      SeveritySpec(h, p, config, results, v).TypeError? <==>
        !(|s| == 2 && NumGe(v, Threshold(h, s[0])) && NumLt(v, Threshold(h, s[1])))
  {
  }

  /** One invalid entry (a key outside SEVERITY_MAP or a NaN threshold)
      makes the whole legacy map give the normal colour. */
  lemma LegacyInvalidIsNormal(h: Host, p: Palette, config: Fields, results: Option<TemplateResults>, v: Num, i: nat)
    requires !Truthy(Get(config, "needle")) && !Truthy(GetSegments(config, results))
    requires Truthy(GetSeverity(config, results))
    requires i < |Entries(GetSeverity(config, results))|
    requires !EntryValid(h, Entries(GetSeverity(config, results))[i])
    ensures SeveritySpec(h, p, config, results, v) == Ok(Str(p.info))
  {
  }

  /** Neither a segment list nor a severity map: the normal colour (or
      none in needle mode). */
  lemma NoThresholdsIsNormal(h: Host, p: Palette, config: Fields, results: Option<TemplateResults>, v: Num)
    requires !Truthy(GetSegments(config, results)) && !Truthy(GetSeverity(config, results))
    ensures SeveritySpec(h, p, config, results, v) ==
      (if Truthy(Get(config, "needle")) then Ok(Undefined) else Ok(Str(p.info)))
    ensures SeverityLevels(h, p, config, results) == Ok([Level(Fin(0.0), Str(p.info))])
  {
  }

  /** A configuration the schema accepts, whose severity object (as a
      parsed object) holds each key once. */
  predicate CheckedConfig(ext: ConfigSchema.External, config: Fields)
  {
    && ConfigSchema.ValidConfig(ext, Obj(config))
    && (Get(config, "severity").Obj? ==> DistinctNames(Get(config, "severity").fields))
  }

  /** A valid severity object has exactly three entries, all valid. */
  lemma ValidSeverityEntries(h: Host, sev: JsValue)
    requires ConfigSchema.SeverityOk(sev)
    requires sev.Obj? ==> DistinctNames(sev.fields)
    ensures sev.Obj?
    ensures |Entries(sev)| == 3 && AllValid(h, Entries(sev))
  {
    assert sev.Obj?;
    ConfigSchema.SeverityKeys(sev);
    var fs := sev.fields;
    NamesDistinct(fs);
    assert |{"green", "yellow", "red"}| == 3;
    forall i | 0 <= i < |fs| ensures EntryValid(h, fs[i]) {
      GetDistinct(fs, i);
      assert fs[i].name in Names(fs);
    }
  }

  /** Three or more entries: the band tests never read past the end. */
  lemma LegacyBandsTotal(h: Host, p: Palette, s: seq<Field>, v: Num)
    requires |s| >= 3
    ensures LegacyBands(h, p, s, v).Ok?
  {
  }

  /** For a checked configuration (and no template overriding segments or
      severity) the colour never raises, whatever the value. */
  lemma CheckedConfigNeverThrows(ext: ConfigSchema.External, h: Host, p: Palette, config: Fields,
                                 results: Option<TemplateResults>, v: Num)
    requires CheckedConfig(ext, config)
    requires !Truthy(ResultOf(results, SegmentsTemplateKey)) && !Truthy(ResultOf(results, SeverityTemplateKey))
    ensures SeveritySpec(h, p, config, results, v).Ok?
  {
    if Truthy(Get(config, "needle")) {
      return;
    }
    var segments := Get(config, "segments");
    if Truthy(segments) {
      assert ConfigSchema.SegmentsOk(segments);
      var items := segments.items;
      forall i | 0 <= i < |items| ensures items[i].Obj? {
        assert ConfigSchema.SegmentOk(items[i]);
      }
      assert Null !in Defined(items);
      assert Iterate(segments) == Ok(items);
      assert SortSegments(h, items).Ok?;
    } else {
      var sev := Get(config, "severity");
      if Truthy(sev) && AllValid(h, Entries(sev)) {
        ValidSeverityEntries(h, sev);
        LegacyPath(h, p, config, results, v);
        LegacyBandsTotal(h, p, SortBy(Entries(sev), ThresholdKey(h)), v);
      }
    }
  }

  /** For a checked configuration every level the gauge receives has a
      numeric threshold and a string colour. */
  lemma CheckedConfigLevels(ext: ConfigSchema.External, h: Host, p: Palette, config: Fields,
                            results: Option<TemplateResults>)
    requires CheckedConfig(ext, config)
    requires !Truthy(ResultOf(results, SegmentsTemplateKey)) && !Truthy(ResultOf(results, SeverityTemplateKey))
    ensures SeverityLevels(h, p, config, results).Ok?
    ensures forall l :: l in SeverityLevels(h, p, config, results).value ==> l.level.Fin? && l.stroke.Str?
  {
    var segments := Get(config, "segments");
    if Truthy(segments) {
      assert ConfigSchema.SegmentsOk(segments);
      var items := segments.items;
      forall i | 0 <= i < |items|
        ensures AsSegment(h, items[i]).from.Fin? && AsSegment(h, items[i]).color.Str?
      {
        assert ConfigSchema.SegmentOk(items[i]);
      }
    } else {
      var sev := Get(config, "severity");
      if Truthy(sev) {
        ValidSeverityEntries(h, sev);
        var es := Entries(sev);
        forall i | 0 <= i < |es| ensures ColourOf(p, es[i].name).Str? {
          assert EntryValid(h, es[i]);
        }
      }
    }
  }

  /** Segments 0 → red and 50 → green: the value 50 is green. */
  lemma SegmentsExample(h: Host, p: Palette)
    ensures var seg0 := Obj([Field("from", Number(Fin(0.0))), Field("color", Str("red"))]);
      var seg1 := Obj([Field("from", Number(Fin(50.0))), Field("color", Str("green"))]);
      SeveritySpec(h, p, [Field("segments", Arr([seg0, seg1]))], None, Fin(50.0)) == Ok(Str("green"))
  {
    var seg0 := Obj([Field("from", Number(Fin(0.0))), Field("color", Str("red"))]);
    var seg1 := Obj([Field("from", Number(Fin(50.0))), Field("color", Str("green"))]);
    var items := [seg0, seg1];
    var config := [Field("segments", Arr(items))];
    assert Prop(seg0, "from") == Number(Fin(0.0));
    assert Prop(seg1, "from") == Number(Fin(50.0));
    assert Prop(seg1, "color") == Str("green");
    assert FromValues(h, items)[1] <= 50.0;
    SegmentColourIsGreatestAtOrBelow(h, p, config, None, items, Fin(50.0));
  }

  /** Legacy map green 0, yellow 50, red 80: the value 65 is in the yellow
      band and takes the warning colour. */
  lemma LegacyExample(h: Host, p: Palette)
    ensures var sev := Obj([Field("green", Number(Fin(0.0))), Field("yellow", Number(Fin(50.0))),
                            Field("red", Number(Fin(80.0)))]);
      SeveritySpec(h, p, [Field("severity", sev)], None, Fin(65.0)) == Ok(Str(p.warning))
  {
    var fs := [Field("green", Number(Fin(0.0))), Field("yellow", Number(Fin(50.0))), Field("red", Number(Fin(80.0)))];
    var config := [Field("severity", Obj(fs))];
    assert GetSegments(config, None) == Undefined;
    assert Entries(Obj(fs)) == fs;
    assert AllValid(h, fs);
    LegacyThreeBands(h, p, config, None, Fin(65.0));
    LegacyExampleInOrder(h, fs);
  }

  /** The example's entries are listed in ascending order already, so
      sorting keeps them where they are. */
  lemma LegacyExampleInOrder(h: Host, fs: seq<Field>)
    requires fs == [Field("green", Number(Fin(0.0))), Field("yellow", Number(Fin(50.0))), Field("red", Number(Fin(80.0)))]
    ensures SortBy(fs, ThresholdKey(h)) == fs
  {
    assert forall i :: 0 <= i < |fs| ==> ThresholdKey(h)(fs[i]) == fs[i].val.n;
    SortBySortedUnchanged(fs, ThresholdKey(h));
  }
}
