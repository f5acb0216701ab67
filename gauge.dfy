/** The gauge element: the needle or value-arc angle, which layers it
    draws, and the level arcs, whose array it sorts in place. */
module Gauge {
  import opened Js
  import opened Sorting
  import opened CardSeverity

  /** The host's `normalize`: 0 when any operand is NaN, else the value
      clamped to [min, max]. */
  function Normalize(value: Num, min: Num, max: Num): Num
  {
    if value.NaN? || min.NaN? || max.NaN? then Fin(0.0)
    else if value.r > max.r then max
    else if value.r < min.r then min
    else value
  }

  /** The host's `getValueInPercentage`: `100 * (value - min) / (max - min)`,
      NaN when the range is empty. */
  function Percentage(value: Num, min: Num, max: Num): Num
  {
    if value.Fin? && min.Fin? && max.Fin? && max.r - min.r != 0.0 then
      Fin(100.0 * (value.r - min.r) / (max.r - min.r))
    else NaN
  }

  /** A percentage of the range in degrees of the half circle. */
  function Degrees(n: Num, min: Num, max: Num): Num
  {
    var pct := Percentage(n, min, max);
    if pct.Fin? then Fin(pct.r * 180.0 / 100.0) else NaN
  }

  /** getAngle: the percentage of the normalised value, in degrees. */
  function GetAngle(value: Num, min: Num, max: Num): Num
  {
    Degrees(Normalize(value, min, max), min, max)
  }

  predicate ProperRange(min: Num, max: Num)
  {
    min.Fin? && max.Fin? && min.r < max.r
  }

  // ---------------------------------------------------------------------
  // The angle

  lemma MulDiv(c: real, x: real, d: real)
    requires d != 0.0
    ensures c * x / d == c * (x / d)
  {
    var q := x / d;
    assert q * d == x;
    assert (c * q) * d == c * x;
  }

  lemma DivMonotone(x: real, y: real, d: real)
    requires d > 0.0 && x <= y
    ensures x / d <= y / d
  {
    var qx, qy := x / d, y / d;
    assert qx * d == x && qy * d == y;
  }

  /** The angle of a number n as a fraction of the range. */
  lemma DegreesFormula(n: real, min: real, max: real)
    requires min < max
    ensures Degrees(Fin(n), Fin(min), Fin(max)) == Fin(180.0 * ((n - min) / (max - min)))
  {
    var d, x := max - min, n - min;
    MulDiv(100.0, x, d);
    var q := x / d;
    assert 100.0 * x / d == 100.0 * q;
    assert 100.0 * q * 180.0 / 100.0 == 180.0 * q;
  }

  /** The normalised value of a number lies in the range. */
  lemma AngleFraction(value: Num, min: Num, max: Num)
    requires ProperRange(min, max) && value.Fin?
    ensures var n := Normalize(value, min, max);
      && n.Fin? && min.r <= n.r <= max.r
      && GetAngle(value, min, max) == Fin(180.0 * ((n.r - min.r) / (max.r - min.r)))
  {
    DegreesFormula(Normalize(value, min, max).r, min.r, max.r);
  }

  /** In a proper range the angle of a number lies in [0, 180]. */
  lemma AngleInHalfCircle(value: Num, min: Num, max: Num)
    requires ProperRange(min, max) && value.Fin?
    ensures GetAngle(value, min, max).Fin?
    ensures 0.0 <= GetAngle(value, min, max).r <= 180.0
  {
    AngleFraction(value, min, max);
    var n := Normalize(value, min, max);
    HalfTurnOfFraction(n.r - min.r, max.r - min.r);
  }

  /** 180 times a fraction x / d of a positive d, with x in [0, d], lies
      in [0, 180]. */
  lemma HalfTurnOfFraction(x: real, d: real)
    requires d > 0.0 && 0.0 <= x <= d
    ensures 0.0 <= 180.0 * (x / d) <= 180.0
  {
    DivMonotone(0.0, x, d);
    DivMonotone(x, d, d);
    assert d / d == 1.0;
  }

  /** At or below min the angle is 0; at or above max it is 180. */
  lemma AngleAtEnds(value: Num, min: Num, max: Num)
    requires ProperRange(min, max) && value.Fin?
    ensures value.r <= min.r ==> GetAngle(value, min, max) == Fin(0.0)
    ensures value.r >= max.r ==> GetAngle(value, min, max) == Fin(180.0)
  {
    AngleFraction(value, min, max);
    var d := max.r - min.r;
    assert d / d == 1.0;
  }

  /** A larger value never gives a smaller angle. */
  lemma AngleMonotone(v: Num, w: Num, min: Num, max: Num)
    requires ProperRange(min, max) && v.Fin? && w.Fin? && v.r <= w.r
    ensures GetAngle(v, min, max).Fin? && GetAngle(w, min, max).Fin?
    ensures GetAngle(v, min, max).r <= GetAngle(w, min, max).r
  {
    AngleFraction(v, min, max);
    AngleFraction(w, min, max);
    var nv, nw := Normalize(v, min, max), Normalize(w, min, max);
    DivMonotone(nv.r - min.r, nw.r - min.r, max.r - min.r);
  }

  /** A NaN value is drawn where an unclamped 0 would be: below the dial
      when the range starts above 0. */
  lemma NaNValueDrawnAsZero(min: Num, max: Num)
    requires ProperRange(min, max)
    ensures GetAngle(NaN, min, max) == Fin(180.0 * ((0.0 - min.r) / (max.r - min.r)))
    ensures min.r > 0.0 ==> GetAngle(NaN, min, max).r < 0.0
  {
    DegreesFormula(0.0, min.r, max.r);
    if min.r > 0.0 {
      DivMonotone(0.0 - min.r, 0.0, max.r - min.r);
      var q := (0.0 - min.r) / (max.r - min.r);
      assert q * (max.r - min.r) == 0.0 - min.r;
    }
  }

  /** An empty range has no angle. */
  lemma EmptyRangeNoAngle(value: Num, m: Num)
    ensures GetAngle(value, m, m) == NaN
  {
  }

  // ---------------------------------------------------------------------
  // Layers

  const LevelKey: Level -> Num := (l: Level) => l.level

  /** One level arc: its stroke and the angle where it starts. */
  datatype Arc = Arc(stroke: JsValue, angle: Num)

  const INFO_STROKE: JsValue := Str("var(--info-color)")

  /** The arcs of the sorted levels, after an info arc from min when the
      lowest level is not min. */
  function LevelArcs(sorted: seq<Level>, min: Num, max: Num): seq<Arc>
  {
    (if |sorted| > 0 && !StrictEq(Number(sorted[0].level), Number(min))
     then [Arc(INFO_STROKE, GetAngle(min, min, max))] else [])
    + seq(|sorted|, i requires 0 <= i < |sorted| => Arc(sorted[i].stroke, GetAngle(sorted[i].level, min, max)))
  }

  /** What render draws: the background dial, the hidden path the gradient
      is drawn along, the level arcs, and the value arc or the needle with
      its rotation. */
  datatype Drawing = Drawing(dial: bool, gradientPath: bool, arcs: seq<Arc>, valueArc: Option<Num>, needleAt: Option<Num>)

  predicate ShowsArcs(needle: bool, gradient: bool, levels: Option<seq<Level>>)
  {
    needle && levels.Some? && !gradient
  }

  function DrawingOf(needle: bool, gradient: bool, levels: Option<seq<Level>>, min: Num, max: Num, angle: Num): Drawing
  {
    Drawing(
      !needle || levels.None?,
      needle && levels.Some? && gradient,
      if ShowsArcs(needle, gradient, levels) then LevelArcs(levels.value, min, max) else [],
      if !needle then Some(angle) else None,
      if needle then Some(angle) else None)
  }

  /** Which layers are drawn: the dial exactly without needle and levels,
      the gradient path exactly with both and the gradient, arcs only with
      both and no gradient, the value arc exactly without the needle, the
      needle exactly with it; whichever of the two is drawn is rotated by
      the current angle. */
  lemma LayerSelection(needle: bool, gradient: bool, levels: Option<seq<Level>>, min: Num, max: Num, angle: Num)
    ensures var d := DrawingOf(needle, gradient, levels, min, max, angle);
      && (d.dial <==> !needle || levels.None?)
      && (d.gradientPath <==> needle && levels.Some? && gradient)
      && (d.arcs != [] ==> needle && levels.Some? && !gradient)
      && (ShowsArcs(needle, gradient, levels) && levels.value != [] ==> d.arcs != [])
      && (d.valueArc.Some? <==> !needle)
      && (d.needleAt.Some? <==> needle)
      && (d.valueArc.Some? ==> d.valueArc.value == angle)
      && (d.needleAt.Some? ==> d.needleAt.value == angle)
      && (d.dial || d.gradientPath || ShowsArcs(needle, gradient, levels))
  {
  }

  /** One arc per level in order, after an info arc exactly when the
      lowest level differs from min. */
  lemma LevelArcsShape(sorted: seq<Level>, min: Num, max: Num)
    requires sorted != []
    ensures var arcs := LevelArcs(sorted, min, max);
      var info := if sorted[0].level != min || min.NaN? then 1 else 0;
      && |arcs| == |sorted| + info
      && (info == 1 ==> arcs[0] == Arc(INFO_STROKE, GetAngle(min, min, max)))
      && (forall i :: 0 <= i < |sorted| ==> arcs[i + info] == Arc(sorted[i].stroke, GetAngle(sorted[i].level, min, max)))
  {
  }

  /** In a proper range the info arc starts at angle 0 and the level arcs
      of sorted finite levels start at ascending angles within the half
      circle. */
  lemma {:induction false} LevelArcsAscend(sorted: seq<Level>, min: Num, max: Num)
    requires ProperRange(min, max)
    requires AllFinite(sorted, LevelKey) && SortedBy(sorted, LevelKey)
    ensures var arcs := LevelArcs(sorted, min, max);
      && (forall i :: 0 <= i < |arcs| ==> arcs[i].angle.Fin? && 0.0 <= arcs[i].angle.r <= 180.0)
      && (forall i, j :: 0 <= i < j < |arcs| ==> arcs[i].angle.r <= arcs[j].angle.r)
  {
    var arcs := LevelArcs(sorted, min, max);
    AngleAtEnds(min, min, max);
    forall i | 0 <= i < |sorted|
      ensures GetAngle(sorted[i].level, min, max).Fin?
      ensures 0.0 <= GetAngle(sorted[i].level, min, max).r <= 180.0
    {
      assert LevelKey(sorted[i]).Fin?;
      AngleInHalfCircle(sorted[i].level, min, max);
    }
    forall i, j | 0 <= i < j < |sorted|
      ensures GetAngle(sorted[i].level, min, max).r <= GetAngle(sorted[j].level, min, max).r
    {
      assert LevelKey(sorted[i]).Fin? && LevelKey(sorted[j]).Fin?;
      assert !Before(LevelKey(sorted[j]), LevelKey(sorted[i]));
      AngleMonotone(sorted[i].level, sorted[j].level, min, max);
    }
    if sorted != [] {
      LevelArcsShape(sorted, min, max);
    }
  }

  // ---------------------------------------------------------------------
  // The element

  /** Inserts a[i] into the sorted prefix a[..i], shifting larger levels
      right. */
  method InsertLevel(a: array<Level>, i: nat)
    requires i < a.Length
    modifies a
    ensures a[..i + 1] == InsertBy(old(a[i]), old(a[..i]), LevelKey)
    ensures forall k :: i < k < a.Length ==> a[k] == old(a[k])
  {
    ghost var o := a[..];
    ghost var p := a[..i];
    var x := a[i];
    var kx := LevelKey(x);
    var j := i;
    while j > 0 && Before(kx, LevelKey(a[j - 1]))
      invariant j <= i
      invariant Shifted(a[..], o, p, kx, j)
    {
      ghost var s := a[..];
      a[j] := a[j - 1];
      assert a[..] == s[j := s[j - 1]];
      ShiftStep(s, o, p, kx, j);
      j := j - 1;
    }
    ghost var s := a[..];
    a[j] := x;
    assert a[..] == s[j := x];
    Placed(s, o, p, x, j);
  }

  /** The state of the insertion loop on a's contents s: p (the sorted
      prefix, of length i) has been moved one place right from j on, every
      moved level is above kx, and everything past i is as it was in o. */
  ghost predicate Shifted(s: seq<Level>, o: seq<Level>, p: seq<Level>, kx: Num, j: nat)
  {
    && j <= |p| < |s| == |o|
    && (forall k :: 0 <= k < j ==> s[k] == p[k])
    && (forall k :: j <= k < |p| ==> s[k + 1] == p[k] && Before(kx, LevelKey(p[k])))
    && (forall k :: |p| < k < |s| ==> s[k] == o[k])
  }

  /** One shift of the insertion loop keeps its state. */
  lemma ShiftStep(s: seq<Level>, o: seq<Level>, p: seq<Level>, kx: Num, j: nat)
    requires Shifted(s, o, p, kx, j) && 0 < j
    requires Before(kx, LevelKey(s[j - 1]))
    ensures Shifted(s[j := s[j - 1]], o, p, kx, j - 1)
  {
    assert s[j - 1] == p[j - 1];
  }

  /** Where the loop stops, x goes in at j: the prefix becomes p with x
      inserted, and nothing past it moved. */
  lemma Placed(s: seq<Level>, o: seq<Level>, p: seq<Level>, x: Level, j: nat)
    requires Shifted(s, o, p, LevelKey(x), j)
    requires !(j > 0 && Before(LevelKey(x), LevelKey(s[j - 1])))
    ensures s[j := x][..|p| + 1] == InsertBy(x, p, LevelKey)
    ensures forall k :: |p| < k < |s| ==> s[j := x][k] == o[k]
  {
    InsertAt(x, p, j, LevelKey);
    var t := s[j := x][..|p| + 1];
    var r := p[..j] + [x] + p[j..];
    forall k | 0 <= k < |t| ensures t[k] == r[k] {
      if k < j {
        assert r[k] == p[k];
      } else if k > j {
        assert s[(k - 1) + 1] == p[k - 1];
      }
    }
  }

  /** `levels.sort((a, b) => a.level - b.level)` on the array itself. */
  method SortLevels(a: array<Level>)
    modifies a
    ensures a[..] == SortBy(old(a[..]), LevelKey)
  {
    ghost var s := a[..];
    for i := 0 to a.Length
      invariant a[..i] == SortBy(s[..i], LevelKey)
      invariant forall k :: i <= k < a.Length ==> a[k] == s[k]
    {
      SortByStep(s, i, LevelKey);
      InsertLevel(a, i);
    }
    assert a[..] == a[..a.Length];
    assert s[..a.Length] == s;
  }

  class GaugeElement {
    var min: Num
    var max: Num
    var value: Num
    var needle: bool
    var gradient: bool
    var levels: Option<array<Level>>
    var angle: Num
    /** Set once the first render has happened. */
    var updated: bool

    constructor()
      ensures min == Fin(0.0) && max == Fin(100.0) && value == Fin(0.0)
      ensures !needle && !gradient && levels.None?
      ensures angle == Fin(0.0) && !updated
    {
      min := Fin(0.0);
      max := Fin(100.0);
      value := Fin(0.0);
      needle := false;
      gradient := false;
      levels := None;
      angle := Fin(0.0);
      updated := false;
    }

    /** The properties the card binds. */
    method SetProperties(min: Num, max: Num, value: Num, needle: bool, gradient: bool, levels: Option<array<Level>>)
      modifies this
      ensures this.min == min && this.max == max && this.value == value
      ensures this.needle == needle && this.gradient == gradient && this.levels == levels
      ensures angle == old(angle) && updated == old(updated)
    {
      this.min := min;
      this.max := max;
      this.value := value;
      this.needle := needle;
      this.gradient := gradient;
      this.levels := levels;
    }

    /** The callback firstUpdated schedules after the first render. */
    method AfterFirstRender()
      modifies this
      ensures updated && angle == GetAngle(value, min, max)
      ensures min == old(min) && max == old(max) && value == old(value)
      ensures needle == old(needle) && gradient == old(gradient) && levels == old(levels)
    {
      updated := true;
      angle := GetAngle(value, min, max);
    }

    /** updated: the angle follows the value once the first render is
        over, and stays put before. */
    method Updated()
      modifies this
      ensures updated == old(updated)
      ensures angle == if updated then GetAngle(value, min, max) else old(angle)
      ensures min == old(min) && max == old(max) && value == old(value)
      ensures needle == old(needle) && gradient == old(gradient) && levels == old(levels)
    {
      if !updated {
        return;
      }
      angle := GetAngle(value, min, max);
    }

    /** render: sorts the level array in place when the arcs are drawn. */
    method Render() returns (d: Drawing)
      modifies if levels.Some? then {levels.value} else {}
      ensures levels.Some? ==>
        levels.value[..] == (if needle && !gradient then SortBy(old(levels.value[..]), LevelKey)
                             else old(levels.value[..]))
      ensures d == DrawingOf(needle, gradient, if levels.Some? then Some(levels.value[..]) else None, min, max, angle)
    {
      if needle && levels.Some? && !gradient {
        SortLevels(levels.value);
      }
      d := DrawingOf(needle, gradient, if levels.Some? then Some(levels.value[..]) else None, min, max, angle);
    }
  }

  /** The arcs render draws come from the levels sorted ascending. */
  lemma RenderedArcsSorted(levels: seq<Level>, min: Num, max: Num)
    requires AllFinite(levels, LevelKey)
    ensures SortedBy(SortBy(levels, LevelKey), LevelKey)
    ensures multiset(SortBy(levels, LevelKey)) == multiset(levels)
  {
    SortBySorted(levels, LevelKey);
    SortByPermutes(levels, LevelKey);
  }
}
