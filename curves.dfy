/**
  The connectors of the funnel chart: one cubic Bezier curve joins a band
  boundary of one step to the same boundary of the next. Positions are
  normalised; the curve is emitted in output units, 1000 per unit.
 */
module Curves {

  datatype Point = Point(x: real, y: real)

  /** One cubic curve: its start, its two control points and its end. */
  datatype Connector = Connector(start: Point, c1: Point, c2: Point, end: Point)

  /** Output units per normalised unit. */
  const Scale: real := 1000.0

  /** At ratio 2, the two control offsets together, in output units (each
      control point moves 250). */
  const BezierDistance: real := 500.0

  function Scaled(p: Point): Point
  {
    Point(p.x * Scale, p.y * Scale)
  }

  /** The curve from `p1` to `p2`; its control points leave `p1` and reach
      `p2` horizontally, pushed `125 * ratio` output units along the
      direction of travel (rightwards for a positive ratio). */
  function CreateBezierConnector(p1: Point, p2: Point, ratio: real): (c: Connector)
    ensures c.start == Point(1000.0 * p1.x, 1000.0 * p1.y)
    ensures c.end == Point(1000.0 * p2.x, 1000.0 * p2.y)
    ensures c.c1 == Point(c.start.x + 125.0 * ratio, c.start.y)
    ensures c.c2 == Point(c.end.x - 125.0 * ratio, c.end.y)
  {
    var half := ratio * 0.5;
    Connector(
      Scaled(p1),
      Point(p1.x * Scale + (half * BezierDistance) / 2.0, p1.y * Scale),
      Point(p2.x * Scale - (BezierDistance * half / 2.0), p2.y * Scale),
      Scaled(p2))
  }

  /** The same curve traced from its end back to its start. */
  function Reversed(c: Connector): Connector
  {
    Connector(c.end, c.c2, c.c1, c.start)
  }

  /** Reversing twice gives the curve back. */
  lemma ReversedInvolution(c: Connector)
    ensures Reversed(Reversed(c)) == c
  {
  }

  /** A connector from `p2` to `p1` with the ratio negated is exactly the
      connector from `p1` to `p2` traced backwards. */
  lemma ConnectorReversal(p1: Point, p2: Point, ratio: real)
    ensures CreateBezierConnector(p2, p1, -ratio) == Reversed(CreateBezierConnector(p1, p2, ratio))
  {
  }

  /** When the horizontal gap leaves room for both control offsets, the
      control points lie in order between the ends, so the curve moves
      monotonically from left to right. */
  lemma ControlPointsBetween(p1: Point, p2: Point, ratio: real)
    requires 0.0 <= ratio && 250.0 * ratio <= 1000.0 * (p2.x - p1.x)
    ensures var c := CreateBezierConnector(p1, p2, ratio);
      c.start.x <= c.c1.x <= c.c2.x <= c.end.x
  {
  }
}
