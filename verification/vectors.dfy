/** Two-component vectors and rectangles, standing for pygame's Vector2 and the (pos, size) pairs built from them. */
module Vectors {

  datatype Vec = Vec(x: real, y: real)
  {
    function Plus(o: Vec): Vec { Vec(x + o.x, y + o.y) }

    /** Component-wise product, Vector2's `elementwise() *`. */
    function Times(o: Vec): Vec { Vec(x * o.x, y * o.y) }

    function Scaled(k: real): Vec { Vec(x * k, y * k) }

    function Negated(): Vec { Vec(-x, -y) }
  }

  /** A rectangle given by its top-left corner and its size. */
  datatype Rect = Rect(pos: Vec, size: Vec)

  /** One axis of a rectangle: where it starts and how far it extends. */
  datatype Span = Span(start: real, extent: real)

  function XSpan(r: Rect): Span { Span(r.pos.x, r.size.x) }

  function YSpan(r: Rect): Span { Span(r.pos.y, r.size.y) }

  /** A position along an axis as a share of it that the kit's anchor and
      alignment tables use: the start, the middle or the end. */
  predicate IsAxisMark(a: real)
  {
    a == 0.0 || a == 0.5 || a == 1.0
  }

  /** `inner` has a non-negative extent and lies within `outer`. */
  predicate SpanWithin(inner: Span, outer: Span)
  {
    outer.start <= inner.start && 0.0 <= inner.extent && inner.start + inner.extent <= outer.start + outer.extent
  }

  /** `inner` lies within `outer` on both axes. */
  predicate RectWithin(inner: Rect, outer: Rect)
  {
    SpanWithin(XSpan(inner), XSpan(outer)) && SpanWithin(YSpan(inner), YSpan(outer))
  }

  /** `p` lies in the closed box with top-left corner `o`, width `w` and height `h`. */
  predicate InClosedBox(o: Vec, w: real, h: real, p: Vec)
  {
    o.x <= p.x <= o.x + w && o.y <= p.y <= o.y + h
  }

  /** `p` lies on one of the four lines that bound that box. */
  predicate OnEdge(o: Vec, w: real, h: real, p: Vec)
  {
    p.x == o.x || p.x == o.x + w || p.y == o.y || p.y == o.y + h
  }
}
