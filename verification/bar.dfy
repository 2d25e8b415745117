/**
 * The progress bar of the HUD kit (class Bar in hud_components.py): a
 * rectangle at `pos` of `size`, filled in proportion to curr_value/max_value,
 * either from a named anchor along a named fill direction, or (split mode)
 * out of the bar's centre.
 */
module Bars {
  import opened Outcomes
  import opened Numeric
  import opened Vectors

  /** Bar.bar_anchors: the point, relative to the bar, the fill grows from. */
  const Anchors: map<string, Vec> := map[
    "left" := Vec(0.0, 0.0),
    "right" := Vec(1.0, 0.0),
    "top" := Vec(0.0, 0.0),
    "bot" := Vec(0.0, 1.0),
    "center" := Vec(0.5, 0.5)]

  /** Bar.fill_directions: which axes the fill grows along. */
  const FillDirections: map<string, Vec> := map[
    "vertical" := Vec(0.0, 1.0),
    "horizontal" := Vec(1.0, 0.0),
    "scale" := Vec(1.0, 1.0)]

  const Vertical: Vec := Vec(0.0, 1.0)

  /** Every anchor's components are 0, 1/2 or 1, so it lies in the unit
      square; every fill direction has components 0 or 1, and `Vertical` is
      the 'vertical' entry. */
  lemma TablesWellFormed()
    ensures forall name | name in Anchors :: IsAxisMark(Anchors[name].x) && IsAxisMark(Anchors[name].y)
    ensures forall name | name in FillDirections ::
              (FillDirections[name].x == 0.0 || FillDirections[name].x == 1.0) &&
              (FillDirections[name].y == 0.0 || FillDirections[name].y == 1.0)
    ensures FillDirections["vertical"] == Vertical
  {
  }

  /** Bar.fullness: curr/max clamped to -1..1 with its sign kept; dividing by
      a zero max_value raises, so the caller must not pass one. */
  function Fullness(curr: real, maxValue: real): (n: real)
    requires maxValue != 0.0
    ensures -1.0 <= n <= 1.0
    ensures -1.0 <= curr / maxValue <= 1.0 ==> n == curr / maxValue
    ensures curr / maxValue > 1.0 ==> n == 1.0
    ensures curr / maxValue < -1.0 ==> n == -1.0
  {
    var q := curr / maxValue;
    if Abs(q) > 1.0 then SignOf(q); q / Abs(q) else q
  }

  /** x / |x| is the sign of a non-zero x. */
  lemma SignOf(x: real)
    requires x != 0.0
    ensures x / Abs(x) == if x > 0.0 then 1.0 else -1.0
  {
    if x < 0.0 {
      assert x / -x == -1.0;
    }
  }

  /** The value set_curr_value stores: `value` itself when its magnitude is
      at most max_value, else max_value with value's sign. The division by
      |value| raises for value == 0 when max_value < 0. */
  function Clamped(value: real, maxValue: real): (v: real)
    requires !(value == 0.0 && maxValue < 0.0)
    ensures Abs(value) <= maxValue ==> v == value
    ensures value > maxValue && value > 0.0 ==> v == maxValue
    ensures -value > maxValue && value < 0.0 ==> v == -maxValue
    ensures 0.0 <= maxValue ==> -maxValue <= v <= maxValue
  {
    if Abs(value) > maxValue then SignOf(value); (value / Abs(value)) * maxValue else value
  }

  /** Clamping the stored value does not change what the bar shows: for a
      positive max_value the fullness of the clamped value is the fullness of
      the value. */
  lemma ClampKeepsFullness(value: real, maxValue: real)
    requires maxValue > 0.0
    ensures Fullness(Clamped(value, maxValue), maxValue) == Fullness(value, maxValue)
  {
    var c := Clamped(value, maxValue);
    if value > maxValue {
      assert c / maxValue == 1.0;
      assert value / maxValue > 1.0;
    } else if -value > maxValue {
      assert c / maxValue == -1.0;
      assert value / maxValue < -1.0;
    }
  }

  /** Bar.rel_to_abs: a vector relative to the bar turned into pixels. */
  function RelToAbs(v: Vec, size: Vec): Vec
  {
    v.Times(size)
  }

  /** A share between 0 and 1 of each non-negative side lands within that
      side, so a relative point of the unit square stays inside the bar. */
  lemma RelToAbsWithinSize(v: Vec, size: Vec)
    requires 0.0 <= v.x <= 1.0 && 0.0 <= v.y <= 1.0 && 0.0 <= size.x && 0.0 <= size.y
    ensures 0.0 <= RelToAbs(v, size).x <= size.x
    ensures 0.0 <= RelToAbs(v, size).y <= size.y
  {
    RelToAbsX(v, size);
    RelToAbsY(v, size);
  }

  lemma RelToAbsX(v: Vec, size: Vec)
    requires 0.0 <= v.x <= 1.0 && 0.0 <= size.x
    ensures 0.0 <= RelToAbs(v, size).x <= size.x
  {
    ProductBounds(v.x, size.x);
    ProductBounds(1.0 - v.x, size.x);
    assert size.x - v.x * size.x == (1.0 - v.x) * size.x;
  }

  lemma RelToAbsY(v: Vec, size: Vec)
    requires 0.0 <= v.y <= 1.0 && 0.0 <= size.y
    ensures 0.0 <= RelToAbs(v, size).y <= size.y
  {
    ProductBounds(v.y, size.y);
    ProductBounds(1.0 - v.y, size.y);
    assert size.y - v.y * size.y == (1.0 - v.y) * size.y;
  }

  /** Bar.fill_rect_default, computed as the source does from the anchor,
      the fill direction and the fullness. */
  function FillRectDefault(pos: Vec, size: Vec, anchor: Vec, direction: Vec, fullness: real): Rect
  {
    var posC := anchor.Times(direction).Plus(anchor.Negated().Times(direction).Scaled(fullness));
    var sizeC := direction.Negated().Scaled(1.0 - fullness);
    Rect(pos.Plus(RelToAbs(posC, size)), size.Plus(RelToAbs(sizeC, size)))
  }

  /** One axis of fill_rect_default: bar start p, bar extent s, anchor
      component a, direction component d. */
  function DefaultSpan(p: real, s: real, a: real, d: real, f: real): Span
  {
    Span(p + (a * d + ((-a) * d) * f) * s, s + ((-d) * (1.0 - f)) * s)
  }

  /** The vector computation works axis by axis. */
  lemma FillRectDefaultByAxis(pos: Vec, size: Vec, anchor: Vec, direction: Vec, fullness: real)
    ensures XSpan(FillRectDefault(pos, size, anchor, direction, fullness)) == DefaultSpan(pos.x, size.x, anchor.x, direction.x, fullness)
    ensures YSpan(FillRectDefault(pos, size, anchor, direction, fullness)) == DefaultSpan(pos.y, size.y, anchor.y, direction.y, fullness)
  {
  }

  /** Along a fill axis the fill is fullness times the extent, set off from
      the start by anchor * (1 - fullness) * extent; across it, the bar's span. */
  lemma DefaultSpanByDirection(p: real, s: real, a: real, f: real)
    ensures DefaultSpan(p, s, a, 1.0, f) == Span(p + a * (1.0 - f) * s, s * f)
    ensures DefaultSpan(p, s, a, 0.0, f) == Span(p, s)
  {
    assert (a * 1.0 + ((-a) * 1.0) * f) * s == a * (1.0 - f) * s;
    assert s + ((-1.0) * (1.0 - f)) * s == s * f;
  }

  /** The fill along a fill axis lies within the bar's span: it is offset by
      0, half or all of the unfilled part (1 - f) * s, which with the filled
      part s * f makes up s. */
  lemma FillAxisWithin(p: real, s: real, a: real, f: real)
    requires 0.0 <= f <= 1.0 && 0.0 <= s
    requires IsAxisMark(a)
    ensures SpanWithin(Span(p + a * (1.0 - f) * s, s * f), Span(p, s))
  {
    assert 0.0 <= s * f <= s;
    if a == 0.0 {
      assert a * (1.0 - f) * s == 0.0;
    } else if a == 0.5 {
      assert a * (1.0 - f) * s == 0.5 * (s - s * f);
    } else {
      assert a * (1.0 - f) * s == s - s * f;
    }
  }

  /** For a fullness in 0..1 and an anchor component from the table, one
      axis of the default fill stays within the bar's span. */
  lemma DefaultSpanWithin(p: real, s: real, a: real, d: real, f: real)
    requires 0.0 <= f <= 1.0 && IsAxisMark(a) && 0.0 <= s
    requires d == 0.0 || d == 1.0
    ensures SpanWithin(DefaultSpan(p, s, a, d, f), Span(p, s))
  {
    DefaultSpanByDirection(p, s, a, f);
    if d == 1.0 {
      FillAxisWithin(p, s, a, f);
    }
  }

  /** fill_rect_default along each axis: on a fill axis (direction component
      1) the extent is size * fullness and the start is offset by
      anchor * (1 - fullness) * size; on the other axis it is the bar's. */
  lemma FillDefaultOnAxes(pos: Vec, size: Vec, anchor: Vec, direction: Vec, fullness: real)
    requires direction.x == 0.0 || direction.x == 1.0
    requires direction.y == 0.0 || direction.y == 1.0
    ensures var fill := FillRectDefault(pos, size, anchor, direction, fullness);
            XSpan(fill) == if direction.x == 1.0 then Span(pos.x + anchor.x * (1.0 - fullness) * size.x, size.x * fullness)
                           else Span(pos.x, size.x)
    ensures var fill := FillRectDefault(pos, size, anchor, direction, fullness);
            YSpan(fill) == if direction.y == 1.0 then Span(pos.y + anchor.y * (1.0 - fullness) * size.y, size.y * fullness)
                           else Span(pos.y, size.y)
  {
    FillRectDefaultByAxis(pos, size, anchor, direction, fullness);
    DefaultSpanByDirection(pos.x, size.x, anchor.x, fullness);
    DefaultSpanByDirection(pos.y, size.y, anchor.y, fullness);
  }

  /** A full bar is filled entirely, whatever its anchor and direction. */
  lemma FillDefaultWhenFull(pos: Vec, size: Vec, anchor: Vec, direction: Vec)
    ensures FillRectDefault(pos, size, anchor, direction, 1.0) == Rect(pos, size)
  {
  }

  /** For a fullness in 0..1, an anchor and a direction from the tables,
      the default fill lies inside the bar. */
  lemma FillDefaultInsideBar(pos: Vec, size: Vec, anchor: Vec, direction: Vec, fullness: real)
    requires 0.0 <= fullness <= 1.0
    requires IsAxisMark(anchor.x) && IsAxisMark(anchor.y)
    requires direction.x == 0.0 || direction.x == 1.0
    requires direction.y == 0.0 || direction.y == 1.0
    requires 0.0 <= size.x && 0.0 <= size.y
    ensures RectWithin(FillRectDefault(pos, size, anchor, direction, fullness), Rect(pos, size))
  {
    FillRectDefaultByAxis(pos, size, anchor, direction, fullness);
    DefaultSpanWithin(pos.x, size.x, anchor.x, direction.x, fullness);
    DefaultSpanWithin(pos.y, size.y, anchor.y, direction.y, fullness);
  }

  /** Half the fullness, its sign flipped for the 'vertical' direction only. */
  function SplitFullness(direction: Vec, fullness: real): real
  {
    fullness * (if direction != Vertical then 0.5 else -0.5)
  }

  /** Bar.fill_rect_split, computed as the source does. */
  function FillRectSplit(pos: Vec, size: Vec, direction: Vec, fullness: real): Rect
  {
    var half := SplitFullness(direction, fullness);
    var anchor := Vec(0.5, 0.5).Times(direction);
    var sizeC := direction.Negated().Scaled(1.0 - Abs(half));
    var posC := if half < 0.0 then anchor.Scaled(half).Scaled(2.0) else Vec(0.0, 0.0);
    Rect(pos.Plus(RelToAbs(anchor.Plus(posC), size)), size.Plus(RelToAbs(sizeC, size)))
  }

  /** One axis of fill_rect_split, for the signed half-fullness h. */
  function SplitSpan(p: real, s: real, d: real, h: real): Span
  {
    var anchor := 0.5 * d;
    var posC := if h < 0.0 then anchor * h * 2.0 else 0.0;
    Span(p + (anchor + posC) * s, s + ((-d) * (1.0 - Abs(h))) * s)
  }

  /** The vector computation works axis by axis. */
  lemma FillRectSplitByAxis(pos: Vec, size: Vec, direction: Vec, fullness: real)
    ensures var h := SplitFullness(direction, fullness);
            XSpan(FillRectSplit(pos, size, direction, fullness)) == SplitSpan(pos.x, size.x, direction.x, h) &&
            YSpan(FillRectSplit(pos, size, direction, fullness)) == SplitSpan(pos.y, size.y, direction.y, h)
  {
    var h := SplitFullness(direction, fullness);
    var anchor := Vec(0.5, 0.5).Times(direction);
    var r := FillRectSplit(pos, size, direction, fullness);
    if h < 0.0 {
      assert r.pos == pos.Plus(RelToAbs(anchor.Plus(anchor.Scaled(h).Scaled(2.0)), size));
    } else {
      assert r.pos == pos.Plus(RelToAbs(anchor.Plus(Vec(0.0, 0.0)), size));
    }
  }

  /** What the split fill `sp` is along one axis of a bar spanning (p, s) in
      direction component d, for the signed half-fullness h: on a fill axis
      it spans |h| of the extent, starting at the bar's centre when h >= 0 and
      ending there when h < 0; across the fill axis it is the bar's span. */
  predicate SplitAxis(sp: Span, p: real, s: real, d: real, h: real)
  {
    if d == 1.0 then
      sp.extent == Abs(h) * s &&
      (h >= 0.0 ==> sp.start == p + s / 2.0) &&
      (h < 0.0 ==> sp.start + sp.extent == p + s / 2.0)
    else sp == Span(p, s)
  }

  lemma SplitSpanOnAxis(p: real, s: real, d: real, h: real)
    requires d == 0.0 || d == 1.0
    ensures SplitAxis(SplitSpan(p, s, d, h), p, s, d, h)
  {
    if d == 1.0 {
      assert s + ((-1.0) * (1.0 - Abs(h))) * s == Abs(h) * s;
      if h < 0.0 {
        assert (0.5 * 1.0 + 0.5 * 1.0 * h * 2.0) * s + Abs(h) * s == 0.5 * s;
      }
    }
  }

  /** fill_rect_split along each axis, as SplitAxis describes it, for the
      half-fullness SplitFullness gives. */
  lemma FillSplitOnAxes(pos: Vec, size: Vec, direction: Vec, fullness: real)
    requires direction.x == 0.0 || direction.x == 1.0
    requires direction.y == 0.0 || direction.y == 1.0
    ensures SplitAxis(XSpan(FillRectSplit(pos, size, direction, fullness)), pos.x, size.x, direction.x, SplitFullness(direction, fullness))
    ensures SplitAxis(YSpan(FillRectSplit(pos, size, direction, fullness)), pos.y, size.y, direction.y, SplitFullness(direction, fullness))
  {
    FillRectSplitByAxis(pos, size, direction, fullness);
    var h := SplitFullness(direction, fullness);
    SplitSpanOnAxis(pos.x, size.x, direction.x, h);
    SplitSpanOnAxis(pos.y, size.y, direction.y, h);
  }

  /** The half-fullness is |fullness|/2 in magnitude, and its sign is the
      fullness's own except for the 'vertical' direction, where it flips. */
  lemma SplitFullnessSign(direction: Vec, fullness: real)
    ensures Abs(SplitFullness(direction, fullness)) == Abs(fullness) / 2.0
    ensures fullness > 0.0 ==> (SplitFullness(direction, fullness) < 0.0 <==> direction == Vertical)
    ensures fullness < 0.0 ==> (SplitFullness(direction, fullness) < 0.0 <==> direction != Vertical)
  {
  }

  /** A split axis of at most half the bar lies within the bar. */
  lemma SplitAxisWithin(sp: Span, p: real, s: real, d: real, h: real)
    requires SplitAxis(sp, p, s, d, h)
    requires Abs(h) <= 0.5 && 0.0 <= s
    ensures SpanWithin(sp, Span(p, s))
  {
    if d == 1.0 {
      ProductBounds(Abs(h), s);
      ProductBounds(0.5 - Abs(h), s);
      assert 0.5 * s - Abs(h) * s == (0.5 - Abs(h)) * s;
    }
  }

  /** One axis of the split fill, for a half-fullness of at most 1/2, lies
      within the bar's span. */
  lemma SplitSpanWithin(p: real, s: real, d: real, h: real)
    requires d == 0.0 || d == 1.0
    requires Abs(h) <= 0.5 && 0.0 <= s
    ensures SpanWithin(SplitSpan(p, s, d, h), Span(p, s))
  {
    SplitSpanOnAxis(p, s, d, h);
    SplitAxisWithin(SplitSpan(p, s, d, h), p, s, d, h);
  }

  /** The horizontal axis of the split fill lies within the bar's. */
  lemma FillSplitWithinX(pos: Vec, size: Vec, direction: Vec, fullness: real)
    requires -1.0 <= fullness <= 1.0
    requires direction.x == 0.0 || direction.x == 1.0
    requires 0.0 <= size.x
    ensures SpanWithin(XSpan(FillRectSplit(pos, size, direction, fullness)), XSpan(Rect(pos, size)))
  {
    SplitFullnessSign(direction, fullness);
    SplitSpanWithin(pos.x, size.x, direction.x, SplitFullness(direction, fullness));
    FillRectSplitByAxis(pos, size, direction, fullness);
  }

  /** The vertical axis of the split fill lies within the bar's. */
  lemma FillSplitWithinY(pos: Vec, size: Vec, direction: Vec, fullness: real)
    requires -1.0 <= fullness <= 1.0
    requires direction.y == 0.0 || direction.y == 1.0
    requires 0.0 <= size.y
    ensures SpanWithin(YSpan(FillRectSplit(pos, size, direction, fullness)), YSpan(Rect(pos, size)))
  {
    SplitFullnessSign(direction, fullness);
    SplitSpanWithin(pos.y, size.y, direction.y, SplitFullness(direction, fullness));
    FillRectSplitByAxis(pos, size, direction, fullness);
  }

  /** For a fullness in -1..1 and a direction from the table, the split fill
      lies inside the bar: it covers at most the half on one side of the
      centre. */
  lemma FillSplitInsideBar(pos: Vec, size: Vec, direction: Vec, fullness: real)
    requires -1.0 <= fullness <= 1.0
    requires direction.x == 0.0 || direction.x == 1.0
    requires direction.y == 0.0 || direction.y == 1.0
    requires 0.0 <= size.x && 0.0 <= size.y
    ensures RectWithin(FillRectSplit(pos, size, direction, fullness), Rect(pos, size))
  {
    FillSplitWithinX(pos, size, direction, fullness);
    FillSplitWithinY(pos, size, direction, fullness);
  }

  /** A Bar object: its geometry, its values, and the anchor, direction and
      split mode that choose the fill computation. */
  class Bar {
    var pos: Vec
    var size: Vec
    var maxValue: real
    var currValue: real
    var anchorPos: Vec
    var fillDirection: Vec
    var split: bool

    /** The anchor and direction are entries of their tables. */
    ghost predicate Valid()
      reads this
    {
      anchorPos in Anchors.Values && fillDirection in FillDirections.Values
    }

    /** Bar(pos, size, max_value, start_value) with the default anchor
      'left', direction 'horizontal' and no split; start_value is stored as
      given, not clamped. */
    constructor (pos: Vec, size: Vec, maxValue: real := 1.0, startValue: real := 0.0)
      ensures Valid()
      ensures this.pos == pos && this.size == size
      ensures this.maxValue == maxValue && this.currValue == startValue
      ensures anchorPos == Anchors["left"] && fillDirection == FillDirections["horizontal"] && !split
    {
      this.pos := pos;
      this.size := size;
      this.maxValue := maxValue;
      this.currValue := startValue;
      anchorPos := Anchors["left"];
      fillDirection := FillDirections["horizontal"];
      split := false;
      assert "left" in Anchors && "horizontal" in FillDirections;
    }

    /** Bar(...) with named anchor and direction: an unknown name raises
      KeyError (the anchor is looked up first). */
    static method Create(pos: Vec, size: Vec, maxValue: real := 1.0, startValue: real := 0.0,
                         anchorName: string := "left", directionName: string := "horizontal",
                         split: bool := false)
      returns (res: Result<Bar>)
      ensures res.Err? <==> anchorName !in Anchors || directionName !in FillDirections
      ensures res.Err? ==> res.error == KeyError
      ensures res.Ok? ==> fresh(res.value) && res.value.Valid()
      ensures res.Ok? ==> res.value.pos == pos && res.value.size == size
      ensures res.Ok? ==> res.value.maxValue == maxValue && res.value.currValue == startValue
      ensures res.Ok? ==> res.value.anchorPos == Anchors[anchorName]
      ensures res.Ok? ==> res.value.fillDirection == FillDirections[directionName]
      ensures res.Ok? ==> res.value.split == split
    {
      if anchorName !in Anchors {
        return Err(KeyError);
      }
      var bar := new Bar(pos, size, maxValue, startValue);
      bar.anchorPos := Anchors[anchorName];
      var raised := bar.SetFillDirection(directionName);
      if raised.Some? {
        return Err(raised.value);
      }
      bar.SetSplit(split);
      return Ok(bar);
    }

    /** set_fill_direction: looks the name up, raising KeyError (and changing
      nothing) for an unknown one. */
    method SetFillDirection(name: string) returns (raised: Option<Error>)
      requires Valid()
      modifies this
      ensures Valid()
      ensures raised == (if name in FillDirections then None else Some(KeyError))
      ensures fillDirection == (if name in FillDirections then FillDirections[name] else old(fillDirection))
      ensures pos == old(pos) && size == old(size) && maxValue == old(maxValue) && currValue == old(currValue)
      ensures anchorPos == old(anchorPos) && split == old(split)
    {
      if name !in FillDirections {
        return Some(KeyError);
      }
      fillDirection := FillDirections[name];
      return None;
    }

    /** set_split: the fill rectangle is the split one exactly when `s` is True. */
    method SetSplit(s: bool := false)
      modifies this
      ensures split == s
      ensures maxValue != 0.0 ==>
                FillRect() == Ok(if s then FillRectSplit(pos, size, fillDirection, Fullness(currValue, maxValue))
                                 else FillRectDefault(pos, size, anchorPos, fillDirection, Fullness(currValue, maxValue)))
      ensures pos == old(pos) && size == old(size) && maxValue == old(maxValue) && currValue == old(currValue)
      ensures anchorPos == old(anchorPos) && fillDirection == old(fillDirection)
    {
      split := s;
    }

    /** set_curr_value: stores the value clamped to max_value in magnitude;
      the sign division raises ZeroDivisionError (nothing stored) for a zero
      value when max_value is negative. */
    method SetCurrValue(value: real) returns (raised: Option<Error>)
      modifies this
      ensures raised == (if value == 0.0 && maxValue < 0.0 then Some(ZeroDivisionError) else None)
      ensures raised.None? ==> currValue == Clamped(value, maxValue)
      ensures raised.Some? ==> currValue == old(currValue)
      ensures maxValue > 0.0 ==> Fullness(currValue, maxValue) == Fullness(value, maxValue)
      ensures pos == old(pos) && size == old(size) && maxValue == old(maxValue)
      ensures anchorPos == old(anchorPos) && fillDirection == old(fillDirection) && split == old(split)
    {
      if Abs(value) > maxValue {
        if value == 0.0 {
          return Some(ZeroDivisionError);
        }
        currValue := (value / Abs(value)) * maxValue;
      } else {
        currValue := value;
      }
      if maxValue > 0.0 {
        ClampKeepsFullness(value, maxValue);
      }
      return None;
    }

    /** What the bar draws stays inside it: the split fill always, the
      default fill whenever the fullness is not negative. */
    lemma FillInsideBar()
      requires Valid() && maxValue != 0.0
      requires 0.0 <= size.x && 0.0 <= size.y
      ensures split || 0.0 <= Fullness(currValue, maxValue) ==> RectWithin(FillRect().value, Rect(pos, size))
    {
      TablesWellFormed();
      var f := Fullness(currValue, maxValue);
      var d :| d in FillDirections && FillDirections[d] == fillDirection;
      if split {
        FillSplitInsideBar(pos, size, fillDirection, f);
      } else if 0.0 <= f {
        var a :| a in Anchors && Anchors[a] == anchorPos;
        FillDefaultInsideBar(pos, size, anchorPos, fillDirection, f);
      }
    }

    /** Bar.fullness: curr_value / max_value clamped to -1..1, or
      ZeroDivisionError for a zero max_value. */
    function CurrentFullness(): (res: Result<real>)
      reads this
      ensures res.Err? <==> maxValue == 0.0
      ensures res.Err? ==> res.error == ZeroDivisionError
      ensures res.Ok? ==> -1.0 <= res.value <= 1.0 && res.value == Fullness(currValue, maxValue)
    {
      if maxValue == 0.0 then Err(ZeroDivisionError) else Ok(Fullness(currValue, maxValue))
    }

    /** Bar.fill_rect: the fill rectangle chosen by the split flag, for the
      current fullness; ZeroDivisionError when max_value is zero. */
    function FillRect(): (res: Result<Rect>)
      reads this
      ensures res.Err? <==> maxValue == 0.0
      ensures res.Err? ==> res.error == ZeroDivisionError
      ensures res.Ok? && split ==> res.value == FillRectSplit(pos, size, fillDirection, CurrentFullness().value)
      ensures res.Ok? && !split ==> res.value == FillRectDefault(pos, size, anchorPos, fillDirection, CurrentFullness().value)
    {
      match CurrentFullness()
      case Err(e) => Err(e)
      case Ok(f) =>
        Ok(if split then FillRectSplit(pos, size, fillDirection, f)
           else FillRectDefault(pos, size, anchorPos, fillDirection, f))
    }
  }
}
