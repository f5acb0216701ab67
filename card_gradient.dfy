/** The colour stops of the gauge's gradient: the severity levels inside
    the [min, max] window, scaled to positions in [0, 1], an info stop at
    0 before the first of them, a two-stop fallback, sorted by position;
    and the gradient resolution the path is drawn with. */
module CardGradient {
  import opened Js
  import opened Sorting
  import opened Constants
  import opened CardSeverity
  import ConfigSchema

  /** One colour stop of the gradient. */
  datatype Stop = Stop(color: string, pos: Num)

  const PosKey: Stop -> Num := (s: Stop) => s.pos

  /** `a / b`. The card divides a level's offset from `min` by `max - min`;
      a kept level with `max - min == 0` has offset 0, so the quotient is
      NaN (0 / 0) and no infinity arises. */
  function NumDiv(a: Num, b: Num): (r: Num)
    ensures r.Fin? <==> a.Fin? && b.Fin? && b.r != 0.0
    ensures r.Fin? ==> r.r * b.r == a.r
  {
    if a.Fin? && b.Fin? && b.r != 0.0 then Fin(a.r / b.r) else NaN
  }

  /** The stop colour: a string, with `var(--x)` looked up as the CSS
      variable `--x` (`resolve` stands for the page's computed style); any
      other value has no `includes` to call. */
  function StopColour(resolve: string -> string, stroke: JsValue): Outcome<string>
  {
    if stroke.Str? then
      if Contains(stroke.s, "var(") then Ok(resolve(SliceFromTo(stroke.s, 4, 1))) else Ok(stroke.s)
    else TypeError
  }

  /** The test deciding the info stop, on the level already shifted by
      `-min`: as written it compares with `min`; the evident intent is to
      compare the unshifted level with `min`, i.e. the shifted one with 0. */
  datatype InfoRule = AsWritten | Intended

  predicate InfoBefore(rule: InfoRule, shifted: Num, min: Num)
  {
    match rule
    case AsWritten => NumGt(shifted, min)
    case Intended => NumGt(shifted, Fin(0.0))
  }

  /** The loop keeps a level unless it is below `min` or above `max` (so a
      NaN level is kept). */
  predicate Kept(level: Num, min: Num, max: Num)
  {
    !(NumLt(level, min) || NumGt(level, max))
  }

  /** The stops the loop pushes for the remaining levels, given whether a
      stop has been created already. */
  function LoopStops(rule: InfoRule, p: Palette, resolve: string -> string, levels: seq<Level>,
                     min: Num, max: Num, created: bool): Outcome<seq<Stop>>
    decreases |levels|
  {
    if levels == [] then Ok([])
    else if !Kept(levels[0].level, min, max) then LoopStops(rule, p, resolve, levels[1..], min, max, created)
    else
      var shifted := NumSub(levels[0].level, min);
      var info := if !created && InfoBefore(rule, shifted, min) then [Stop(p.info, Fin(0.0))] else [];
      match StopColour(resolve, levels[0].stroke)
      case TypeError => TypeError
      case Ok(c) => Prepend(info + [Stop(c, NumDiv(shifted, NumSub(max, min)))],
                            LoopStops(rule, p, resolve, levels[1..], min, max, true))
  }

  function Prepend(prefix: seq<Stop>, o: Outcome<seq<Stop>>): Outcome<seq<Stop>>
  {
    match o
    case TypeError => TypeError
    case Ok(s) => Ok(prefix + s)
  }

  lemma PrependEmpty(o: Outcome<seq<Stop>>)
    ensures Prepend([], o) == o
  {
    if o.Ok? {
      assert [] + o.value == o.value;
    }
  }

  lemma PrependPrepend(a: seq<Stop>, b: seq<Stop>, o: Outcome<seq<Stop>>)
    ensures Prepend(a, Prepend(b, o)) == Prepend(a + b, o)
  {
    if o.Ok? {
      assert a + (b + o.value) == (a + b) + o.value;
    }
  }

  /** [warning at 0, error at 1]: what the path gets with fewer than two
      stops. */
  function FallbackStops(p: Palette): seq<Stop>
  {
    [Stop(p.warning, Fin(0.0)), Stop(p.error, Fin(1.0))]
  }

  /** The stop list `_renderGradient` hands to the gradient path. */
  function GradientStops(rule: InfoRule, p: Palette, resolve: string -> string, levels: seq<Level>,
                         min: Num, max: Num): Outcome<seq<Stop>>
  {
    match LoopStops(rule, p, resolve, levels, min, max, false)
    case TypeError => TypeError
    case Ok(stops) => Ok(SortBy(if |stops| < 2 then FallbackStops(p) else stops, PosKey))
  }

  /** The stop-building part of `_renderGradient`, with the info-stop test
      chosen by `rule`: the card's code is `AsWritten`, and `Intended` is the
      corrected test. */
  method BuildGradientStops(rule: InfoRule, p: Palette, resolve: string -> string, levels: seq<Level>,
                            min: Num, max: Num) returns (r: Outcome<seq<Stop>>)
    ensures r == GradientStops(rule, p, resolve, levels, min, max)
  {
    var stops: seq<Stop> := [];
    var diff := NumSub(max, min);
    var created := false;
    var i := 0;
    assert levels[0..] == levels;
    PrependEmpty(LoopStops(rule, p, resolve, levels, min, max, false));
    while i < |levels|
      invariant 0 <= i <= |levels|
      invariant Prepend(stops, LoopStops(rule, p, resolve, levels[i..], min, max, created))
             == LoopStops(rule, p, resolve, levels, min, max, false)
    {
      assert levels[i..][1..] == levels[i + 1..];
      var level := levels[i].level;
      if NumLt(level, min) || NumGt(level, max) {
        i := i + 1;
        continue;
      }
      level := NumSub(level, min);
      var info: seq<Stop> := [];
      if !created && InfoBefore(rule, level, min) {
        info := [Stop(p.info, Fin(0.0))];
      }
      var pos := NumDiv(level, diff);
      var color := StopColour(resolve, levels[i].stroke);
      if color.TypeError? {
        return TypeError;
      }
      PrependPrepend(stops, info + [Stop(color.value, pos)],
                     LoopStops(rule, p, resolve, levels[i + 1..], min, max, true));
      assert stops + (info + [Stop(color.value, pos)]) == stops + info + [Stop(color.value, pos)];
      stops := stops + info + [Stop(color.value, pos)];
      created := true;
      i := i + 1;
    }
    assert levels[i..] == [];
    assert stops + [] == stops;
    if |stops| < 2 {
      stops := FallbackStops(p);
    }
    r := Ok(SortBy(stops, PosKey));
  }

  /** The resolution name the path is drawn with: the configured one when
      it names a GRADIENT_RESOLUTION_MAP entry, otherwise the default. */
  function ChosenResolution(config: Fields): (name: string)
    ensures ResolutionOf(name).Some?
    ensures var g := Get(config, "gradientResolution");
      g.Str? && ResolutionOf(g.s).Some? ==> name == g.s
    ensures var g := Get(config, "gradientResolution");
      !(g.Str? && ResolutionOf(g.s).Some?) ==> name == DEFAULT_GRADIENT_RESOLUTION
  {
    var g := Get(config, "gradientResolution");
    if g.Str? && g.s in RESOLUTION_NAMES then g.s else DEFAULT_GRADIENT_RESOLUTION
  }

  // ---------------------------------------------------------------------
  // Properties

  /** How many levels the loop keeps. */
  function KeptCount(levels: seq<Level>, min: Num, max: Num): nat
    decreases |levels|
  {
    if levels == [] then 0
    else (if Kept(levels[0].level, min, max) then 1 else 0) + KeptCount(levels[1..], min, max)
  }

  /** The first kept level. */
  function FirstKept(levels: seq<Level>, min: Num, max: Num): Option<Num>
    decreases |levels|
  {
    if levels == [] then None
    else if Kept(levels[0].level, min, max) then Some(levels[0].level)
    else FirstKept(levels[1..], min, max)
  }

  /** Whether the info stop is pushed: the test on the first kept level. */
  predicate InfoAdded(rule: InfoRule, levels: seq<Level>, min: Num, max: Num)
  {
    var f := FirstKept(levels, min, max);
    f.Some? && InfoBefore(rule, NumSub(f.value, min), min)
  }

  /** The levels the loop keeps, in order. */
  function KeptLevels(levels: seq<Level>, min: Num, max: Num): (k: seq<Level>)
    ensures forall l :: l in k ==> l in levels && Kept(l.level, min, max)
    decreases |levels|
  {
    if levels == [] then []
    else if Kept(levels[0].level, min, max) then [levels[0]] + KeptLevels(levels[1..], min, max)
    else KeptLevels(levels[1..], min, max)
  }

  /** The stop a kept level contributes: its colour at
      `(level - min) / (max - min)`. */
  predicate StopOfLevel(resolve: string -> string, s: Stop, l: Level, min: Num, max: Num)
  {
    && StopColour(resolve, l.stroke).Ok?
    && s == Stop(StopColour(resolve, l.stroke).value, NumDiv(NumSub(l.level, min), NumSub(max, min)))
  }

  /** The stops s are, in order, the stops of the levels k after e
      leading stops. */
  predicate StopsOfLevels(resolve: string -> string, s: seq<Stop>, e: nat, k: seq<Level>, min: Num, max: Num)
  {
    && |s| == |k| + e
    && forall i :: 0 <= i < |k| ==> StopOfLevel(resolve, s[e + i], k[i], min, max)
  }

  /** After the optional info stop, the loop's stops are, in order, the
      kept levels scaled into the window: the i-th kept level gives its
      colour at `(level - min) / (max - min)`. */
  lemma {:induction false} LoopPositions(rule: InfoRule, p: Palette, resolve: string -> string, levels: seq<Level>,
                                         min: Num, max: Num, created: bool)
    requires LoopStops(rule, p, resolve, levels, min, max, created).Ok?
    ensures var s := LoopStops(rule, p, resolve, levels, min, max, created).value;
      var e := if !created && InfoAdded(rule, levels, min, max) then 1 else 0;
      && StopsOfLevels(resolve, s, e, KeptLevels(levels, min, max), min, max)
      && (e == 1 ==> s[0] == Stop(p.info, Fin(0.0)))
    decreases |levels|
  {
    if levels != [] {
      if !Kept(levels[0].level, min, max) {
        LoopPositions(rule, p, resolve, levels[1..], min, max, created);
      } else {
        LoopPositions(rule, p, resolve, levels[1..], min, max, true);
        LoopPositionsKept(rule, p, resolve, levels, min, max, created);
      }
    }
  }

  /** The step of LoopPositions for a kept first level. */
  lemma LoopPositionsKept(rule: InfoRule, p: Palette, resolve: string -> string, levels: seq<Level>,
                          min: Num, max: Num, created: bool)
    requires levels != [] && Kept(levels[0].level, min, max)
    requires LoopStops(rule, p, resolve, levels, min, max, created).Ok?
    requires LoopStops(rule, p, resolve, levels[1..], min, max, true).Ok?
    requires StopsOfLevels(resolve, LoopStops(rule, p, resolve, levels[1..], min, max, true).value, 0,
                           KeptLevels(levels[1..], min, max), min, max)
    ensures var s := LoopStops(rule, p, resolve, levels, min, max, created).value;
      var e := if !created && InfoAdded(rule, levels, min, max) then 1 else 0;
      && StopsOfLevels(resolve, s, e, KeptLevels(levels, min, max), min, max)
      && (e == 1 ==> s[0] == Stop(p.info, Fin(0.0)))
  {
    var l := levels[0];
    var r := LoopStops(rule, p, resolve, levels[1..], min, max, true).value;
    var s := LoopStops(rule, p, resolve, levels, min, max, created).value;
    var k := KeptLevels(levels, min, max);
    var k' := KeptLevels(levels[1..], min, max);
    assert k == [l] + k';
    assert FirstKept(levels, min, max) == Some(l.level);
    var info, st := KeptHead(rule, p, resolve, levels, min, max, created);
    StopsOfLevelsCons(resolve, info, st, r, l, k', min, max);
  }

  /** Putting a level's stop (after e leading stops) in front of the
      stops of further levels gives the stops of all of them. */
  lemma StopsOfLevelsCons(resolve: string -> string, lead: seq<Stop>, st: Stop, r: seq<Stop>,
                          l: Level, k: seq<Level>, min: Num, max: Num)
    requires StopOfLevel(resolve, st, l, min, max)
    requires StopsOfLevels(resolve, r, 0, k, min, max)
    ensures StopsOfLevels(resolve, lead + [st] + r, |lead|, [l] + k, min, max)
  {
    var s, e, k1 := lead + [st] + r, |lead|, [l] + k;
    forall i | 0 <= i < |k1| ensures StopOfLevel(resolve, s[e + i], k1[i], min, max) {
      if i > 0 {
        assert s[e + i] == r[i - 1] && k1[i] == k[i - 1];
      }
    }
  }

  /** What the loop pushes for a kept first level: the info stop when the
      test passes on the first stop, then the level's own stop. */
  lemma KeptHead(rule: InfoRule, p: Palette, resolve: string -> string, levels: seq<Level>,
                 min: Num, max: Num, created: bool) returns (info: seq<Stop>, st: Stop)
    requires levels != [] && Kept(levels[0].level, min, max)
    requires LoopStops(rule, p, resolve, levels, min, max, created).Ok?
    ensures LoopStops(rule, p, resolve, levels[1..], min, max, true).Ok?
    ensures info == if !created && InfoBefore(rule, NumSub(levels[0].level, min), min)
                    then [Stop(p.info, Fin(0.0))] else []
    ensures StopOfLevel(resolve, st, levels[0], min, max)
    ensures LoopStops(rule, p, resolve, levels, min, max, created).value
         == info + [st] + LoopStops(rule, p, resolve, levels[1..], min, max, true).value
  {
    var l := levels[0];
    var shifted := NumSub(l.level, min);
    info := if !created && InfoBefore(rule, shifted, min) then [Stop(p.info, Fin(0.0))] else [];
    st := Stop(StopColour(resolve, l.stroke).value, NumDiv(shifted, NumSub(max, min)));
  }

  /** The loop pushes one stop per kept level, plus the info stop, which
      comes first when it is pushed. */
  lemma {:induction false} LoopShape(rule: InfoRule, p: Palette, resolve: string -> string, levels: seq<Level>,
                                     min: Num, max: Num, created: bool)
    requires LoopStops(rule, p, resolve, levels, min, max, created).Ok?
    ensures var s := LoopStops(rule, p, resolve, levels, min, max, created).value;
      var extra := !created && InfoAdded(rule, levels, min, max);
      && |s| == KeptCount(levels, min, max) + (if extra then 1 else 0)
      && (extra ==> s[0] == Stop(p.info, Fin(0.0)))
    decreases |levels|
  {
    if levels != [] {
      if !Kept(levels[0].level, min, max) {
        LoopShape(rule, p, resolve, levels[1..], min, max, created);
      } else {
        LoopShape(rule, p, resolve, levels[1..], min, max, true);
      }
    }
  }

  /** With a proper numeric range and numeric levels, every stop lies in
      [0, 1]. */
  lemma {:induction false} LoopStopsInUnit(rule: InfoRule, p: Palette, resolve: string -> string, levels: seq<Level>,
                                           min: Num, max: Num, created: bool)
    requires min.Fin? && max.Fin? && min.r < max.r
    requires forall i :: 0 <= i < |levels| ==> levels[i].level.Fin?
    requires LoopStops(rule, p, resolve, levels, min, max, created).Ok?
    ensures var s := LoopStops(rule, p, resolve, levels, min, max, created).value;
      forall i :: 0 <= i < |s| ==> s[i].pos.Fin? && 0.0 <= s[i].pos.r <= 1.0
    decreases |levels|
  {
    if levels != [] {
      var l := levels[0].level;
      LoopStopsInUnit(rule, p, resolve, levels[1..], min, max, Kept(l, min, max) || created);
      if Kept(l, min, max) {
        UnitQuotient(l.r - min.r, max.r - min.r);
      }
    }
  }

  lemma UnitQuotient(a: real, d: real)
    requires d > 0.0 && 0.0 <= a <= d
    ensures 0.0 <= a / d <= 1.0
  {
  }

  /** A string without the letter v holds no `var(`. */
  lemma NoVarReference(s: string)
    requires 'v' !in s
    ensures !Contains(s, "var(")
  {
    forall i | 0 <= i <= |s| - 4 ensures !OccursAt(s, "var(", i) {
      assert s[i..i + 4][0] == s[i];
    }
  }

  /** Whatever the levels, the path never gets fewer than two stops; with
      fewer than two from the loop it gets exactly [warning at 0, error at
      1], otherwise the loop's stops reordered. */
  lemma GradientShape(rule: InfoRule, p: Palette, resolve: string -> string, levels: seq<Level>, min: Num, max: Num)
    requires LoopStops(rule, p, resolve, levels, min, max, false).Ok?
    ensures var g := GradientStops(rule, p, resolve, levels, min, max);
      var loop := LoopStops(rule, p, resolve, levels, min, max, false).value;
      && g.Ok? && |g.value| >= 2
      && (|loop| < 2 ==> g.value == FallbackStops(p))
      && (|loop| >= 2 ==> multiset(g.value) == multiset(loop))
  {
    var f := FallbackStops(p);
    var loop := LoopStops(rule, p, resolve, levels, min, max, false).value;
    SortByPermutes(loop, PosKey);
    assert f[..1] == [f[0]];
    assert SortBy(f[..1], PosKey) == [f[0]];
  }

  /** With a proper numeric range and numeric levels, the stops come out in
      ascending order of position, all within [0, 1]. */
  lemma GradientSortedInUnit(rule: InfoRule, p: Palette, resolve: string -> string, levels: seq<Level>,
                             min: Num, max: Num)
    requires min.Fin? && max.Fin? && min.r < max.r
    requires forall i :: 0 <= i < |levels| ==> levels[i].level.Fin?
    requires LoopStops(rule, p, resolve, levels, min, max, false).Ok?
    ensures var g := GradientStops(rule, p, resolve, levels, min, max);
      && g.Ok?
      && SortedBy(g.value, PosKey)
      && forall i :: 0 <= i < |g.value| ==> g.value[i].pos.Fin? && 0.0 <= g.value[i].pos.r <= 1.0
  {
    LoopStopsInUnit(rule, p, resolve, levels, min, max, false);
    var loop := LoopStops(rule, p, resolve, levels, min, max, false).value;
    var s := if |loop| < 2 then FallbackStops(p) else loop;
    assert forall i :: 0 <= i < |s| ==> s[i].pos.Fin? && 0.0 <= s[i].pos.r <= 1.0;
    assert forall i :: 0 <= i < |s| ==> PosKey(s[i]) == s[i].pos;
    SortBySorted(s, PosKey);
    SortByPermutes(s, PosKey);
    var g := SortBy(s, PosKey);
    forall i | 0 <= i < |g| ensures g[i].pos.Fin? && 0.0 <= g[i].pos.r <= 1.0 {
      var j := PermIndex(g, s, i);
    }
  }

  /** Only a stroke that is not a string raises: string strokes always
      give a stop list. */
  lemma {:induction false} StringStrokesNeverThrow(rule: InfoRule, p: Palette, resolve: string -> string,
                                                   levels: seq<Level>, min: Num, max: Num, created: bool)
    requires forall i :: 0 <= i < |levels| ==> levels[i].stroke.Str?
    ensures LoopStops(rule, p, resolve, levels, min, max, created).Ok?
    decreases |levels|
  {
    if levels != [] {
      StringStrokesNeverThrow(rule, p, resolve, levels[1..], min, max, true);
      StringStrokesNeverThrow(rule, p, resolve, levels[1..], min, max, created);
    }
  }

  /** For a checked configuration in needle mode (no template overriding
      segments or severity), the gradient never raises. */
  lemma CheckedConfigGradient(rule: InfoRule, ext: ConfigSchema.External, h: Host, p: Palette,
                              resolve: string -> string, config: Fields, results: Option<CardTemplates.TemplateResults>, min: Num, max: Num)
    requires CheckedConfig(ext, config)
    requires !Truthy(CardTemplates.ResultOf(results, CardTemplates.SegmentsTemplateKey))
    requires !Truthy(CardTemplates.ResultOf(results, CardTemplates.SeverityTemplateKey))
    ensures SeverityLevels(h, p, config, results).Ok?
    ensures GradientStops(rule, p, resolve, SeverityLevels(h, p, config, results).value, min, max).Ok?
  {
    CheckedConfigLevels(ext, h, p, config, results);
    var levels := SeverityLevels(h, p, config, results).value;
    assert forall i :: 0 <= i < |levels| ==> levels[i] in levels;
    StringStrokesNeverThrow(rule, p, resolve, levels, min, max, false);
  }

  /** With the intended test, an info stop precedes the first kept level
      exactly when that level lies above `min`. */
  lemma IntendedInfoRule(levels: seq<Level>, min: Num, max: Num)
    requires min.Fin?
    requires FirstKept(levels, min, max).Some? && FirstKept(levels, min, max).value.Fin?
    ensures InfoAdded(Intended, levels, min, max) <==> FirstKept(levels, min, max).value.r > min.r
  {
  }

  /** As written, the test compares the shifted level with `min`, so the
      info stop appears exactly when the first kept level exceeds twice
      `min`. */
  lemma AsWrittenInfoRule(levels: seq<Level>, min: Num, max: Num)
    requires min.Fin?
    requires FirstKept(levels, min, max).Some? && FirstKept(levels, min, max).value.Fin?
    ensures InfoAdded(AsWritten, levels, min, max) <==> FirstKept(levels, min, max).value.r > 2.0 * min.r
  {
  }

  /** Range 10..100 with levels at 20 (red) and 60 (green): as written no
      info stop is pushed although the first level lies above `min`, so
      the band from 10 to 20 takes the red of the first stop; with the
      intended test the info stop comes first. */
  lemma InfoStopMissedAboveMin(p: Palette, resolve: string -> string)
    ensures var levels := [Level(Fin(20.0), Str("red")), Level(Fin(60.0), Str("green"))];
      && LoopStops(AsWritten, p, resolve, levels, Fin(10.0), Fin(100.0), false).Ok?
      && |LoopStops(AsWritten, p, resolve, levels, Fin(10.0), Fin(100.0), false).value| == 2
      && LoopStops(AsWritten, p, resolve, levels, Fin(10.0), Fin(100.0), false).value[0].color == "red"
      && LoopStops(Intended, p, resolve, levels, Fin(10.0), Fin(100.0), false).Ok?
      && |LoopStops(Intended, p, resolve, levels, Fin(10.0), Fin(100.0), false).value| == 3
      && LoopStops(Intended, p, resolve, levels, Fin(10.0), Fin(100.0), false).value[0] == Stop(p.info, Fin(0.0))
  {
    var levels := [Level(Fin(20.0), Str("red")), Level(Fin(60.0), Str("green"))];
    assert levels[1..] == [Level(Fin(60.0), Str("green"))];
    assert levels[1..][1..] == [];
    NoVarReference("red");
    NoVarReference("green");
    var min, max := Fin(10.0), Fin(100.0);
    var l1 := levels[1..];
    assert LoopStops(AsWritten, p, resolve, l1[1..], min, max, true) == Ok([]);
    assert LoopStops(Intended, p, resolve, l1[1..], min, max, true) == Ok([]);
    var green := Stop("green", NumDiv(NumSub(Fin(60.0), min), NumSub(max, min)));
    assert [green] + [] == [green];
    assert ([] + [green]) == [green];
    assert LoopStops(AsWritten, p, resolve, l1, min, max, true) == Ok([green]);
    assert LoopStops(Intended, p, resolve, l1, min, max, true) == Ok([green]);
  }

  /** Range -10..100 with a first level at -10: as written an info stop is
      pushed at 0 although the level sits on `min` and already starts
      there; the intended test pushes none. */
  lemma InfoStopAddedOnMin(p: Palette, resolve: string -> string)
    ensures var levels := [Level(Fin(-10.0), Str("red"))];
      && LoopStops(AsWritten, p, resolve, levels, Fin(-10.0), Fin(100.0), false)
         == Ok([Stop(p.info, Fin(0.0)), Stop("red", Fin(0.0))])
      && LoopStops(Intended, p, resolve, levels, Fin(-10.0), Fin(100.0), false)
         == Ok([Stop("red", Fin(0.0))])
  {
    var levels := [Level(Fin(-10.0), Str("red"))];
    assert levels[1..] == [];
    NoVarReference("red");
    assert NumSub(Fin(-10.0), Fin(-10.0)) == Fin(0.0);
    assert NumDiv(Fin(0.0), NumSub(Fin(100.0), Fin(-10.0))) == Fin(0.0);
    var red := Stop("red", Fin(0.0));
    assert [Stop(p.info, Fin(0.0))] + [red] + [] == [Stop(p.info, Fin(0.0)), red];
    assert [] + [red] + [] == [red];
  }

  /** For a configuration the schema accepts, a configured resolution is
      the one used, and without one the path is drawn at "medium". */
  lemma ResolutionChoice(ext: ConfigSchema.External, config: Fields)
    requires ConfigSchema.ValidConfig(ext, Obj(config))
    ensures Get(config, "gradientResolution").Undefined? ==> ChosenResolution(config) == "medium"
    ensures !Get(config, "gradientResolution").Undefined? ==>
      ChosenResolution(config) == Get(config, "gradientResolution").s
  {
  }
}
