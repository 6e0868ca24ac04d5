/** Points in the 2D layout coordinate system (Y increases downward) and
    their translation helpers. `CGFloat` is modelled as `real`.
 */
module Points {

  datatype Point = Point(x: real, y: real)

  /** Translate by separate horizontal and vertical distances; an omitted
      distance defaults to zero. The result lies exactly (x, y) away from
      the original. */
  function OffsetBy(p: Point, x: real := 0.0, y: real := 0.0): (q: Point)
    ensures q.x - p.x == x && q.y - p.y == y
  {
    Point(p.x + x, p.y + y)
  }

  /** Translate by the same distance on both axes: the two-distance form on
      the diagonal. */
  function OffsetByLength(p: Point, length: real): (q: Point)
    ensures q == OffsetBy(p, length, length)
  {
    Point(p.x + length, p.y + length)
  }

  /** Direction-aware translation: the horizontal distance points toward the
      trailing side, so it is mirrored in a right-to-left layout; the vertical
      distance never is. The library's own definition is not part of this
      model; this follows what its tests pin down. */
  function LeadingOffsetBy(p: Point, rtl: bool, dx: real, dy: real): (q: Point)
    ensures q.x - p.x == (if rtl then -dx else dx) && q.y - p.y == dy
  {
    if rtl then OffsetBy(p, -dx, dy) else OffsetBy(p, dx, dy)
  }

  /** Direction-aware translation by the same distance on both axes: the
      vertical move is `length`, the horizontal one is mirrored right to left. */
  function LeadingOffsetByLength(p: Point, rtl: bool, length: real): (q: Point)
    ensures q.x - p.x == (if rtl then -length else length) && q.y - p.y == length
  {
    LeadingOffsetBy(p, rtl, length, length)
  }

  // ----- Properties of plain offsets -----

  /** Omitted distances leave their coordinate unchanged. */
  lemma OffsetDefaults(p: Point, d: real)
    ensures OffsetBy(p) == p
    ensures OffsetBy(p, x := d) == Point(p.x + d, p.y)
    ensures OffsetBy(p, y := d) == Point(p.x, p.y + d)
  {
  }

  /** Offsets compose additively, and an offset is undone by its negation. */
  lemma OffsetComposes(p: Point, a: real, b: real, c: real, d: real)
    ensures OffsetBy(OffsetBy(p, a, b), c, d) == OffsetBy(p, a + c, b + d)
    ensures OffsetBy(OffsetBy(p, a, b), -a, -b) == p
  {
  }

  /** The examples of the point tests. */
  lemma OffsetExamples()
    ensures OffsetBy(Point(50.0, 50.0), 10.0, 10.0) == Point(60.0, 60.0)
    ensures OffsetBy(Point(50.0, 50.0), -10.0, -10.0) == Point(40.0, 40.0)
    ensures OffsetBy(Point(50.0, 50.0), x := 10.0) == Point(60.0, 50.0)
    ensures OffsetBy(Point(50.0, 50.0), y := 10.0) == Point(50.0, 60.0)
    ensures OffsetByLength(Point(50.0, 50.0), 10.0) == Point(60.0, 60.0)
    ensures OffsetByLength(Point(50.0, 50.0), -10.0) == Point(40.0, 40.0)
  {
  }

  // ----- Properties of leading offsets -----

  /** Left to right, a leading offset is the plain offset. */
  lemma LeadingOffsetLeftToRight(p: Point, dx: real, dy: real)
    ensures LeadingOffsetBy(p, false, dx, dy) == OffsetBy(p, dx, dy)
    ensures LeadingOffsetByLength(p, false, dx) == OffsetByLength(p, dx)
  {
  }

  /** Right to left, only the horizontal distance is mirrored. */
  lemma LeadingOffsetRightToLeft(p: Point, dx: real, dy: real)
    ensures LeadingOffsetBy(p, true, dx, dy) == Point(p.x - dx, p.y + dy)
    ensures LeadingOffsetBy(p, true, dx, dy) == LeadingOffsetBy(p, false, -dx, dy)
    ensures LeadingOffsetByLength(p, true, dx) == Point(p.x - dx, p.y + dx)
  {
  }

  /** In either direction a leading offset is undone by its negation. */
  lemma LeadingOffsetInverse(p: Point, rtl: bool, dx: real, dy: real)
    ensures LeadingOffsetBy(LeadingOffsetBy(p, rtl, dx, dy), rtl, -dx, -dy) == p
  {
  }

  /** The examples of the leading-offset tests. */
  lemma LeadingOffsetExamples()
    ensures LeadingOffsetBy(Point(50.0, 50.0), false, 10.0, 10.0) == Point(60.0, 60.0)
    ensures LeadingOffsetBy(Point(50.0, 50.0), false, -10.0, -10.0) == Point(40.0, 40.0)
    ensures LeadingOffsetBy(Point(50.0, 50.0), true, 10.0, 10.0) == Point(40.0, 60.0)
    ensures LeadingOffsetBy(Point(50.0, 50.0), true, -10.0, -10.0) == Point(60.0, 40.0)
    ensures LeadingOffsetByLength(Point(50.0, 50.0), false, 10.0) == Point(60.0, 60.0)
    ensures LeadingOffsetByLength(Point(50.0, 50.0), false, -10.0) == Point(40.0, 40.0)
    ensures LeadingOffsetByLength(Point(50.0, 50.0), true, 10.0) == Point(40.0, 60.0)
    ensures LeadingOffsetByLength(Point(50.0, 50.0), true, -10.0) == Point(60.0, 40.0)
  {
  }
}
