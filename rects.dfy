/** Named positions of an axis-aligned rectangle: nine physical positions
    (corners, edge midpoints, centre) and six direction-aware ones that pick
    the left or right variant according to the layout direction.
 */
module Rects {
  import opened Points
  import opened Sizes

  /** A rectangle as its origin (the top-left corner, Y growing downward)
      and its size. */
  datatype Rect = Rect(origin: Point, size: Size) {

    /** The position formulas assume a non-negative size. */
    predicate Valid() {
      size.width >= 0.0 && size.height >= 0.0
    }

    function MinX(): real requires Valid() { origin.x }
    function MidX(): real requires Valid() { origin.x + size.width * 0.5 }
    function MaxX(): real requires Valid() { origin.x + size.width }
    function MinY(): real requires Valid() { origin.y }
    function MidY(): real requires Valid() { origin.y + size.height * 0.5 }
    function MaxY(): real requires Valid() { origin.y + size.height }
  }

  // ----- Physical positions -----

  datatype Position =
    | TopLeft | TopCenter | TopRight
    | CenterLeft | Center | CenterRight
    | BottomLeft | BottomCenter | BottomRight

  /** The point at a named position of `r`; it lies on the rectangle's
      edge or inside it. */
  function PositionOf(r: Rect, pos: Position): (pt: Point)
    requires r.Valid()
    ensures r.MinX() <= pt.x <= r.MaxX() && r.MinY() <= pt.y <= r.MaxY()
  {
    match pos
    case TopLeft => Point(r.MinX(), r.MinY())
    case TopCenter => Point(r.MidX(), r.MinY())
    case TopRight => Point(r.MaxX(), r.MinY())
    case CenterLeft => Point(r.MinX(), r.MidY())
    case Center => Point(r.MidX(), r.MidY())
    case CenterRight => Point(r.MaxX(), r.MidY())
    case BottomLeft => Point(r.MinX(), r.MaxY())
    case BottomCenter => Point(r.MidX(), r.MaxY())
    case BottomRight => Point(r.MaxX(), r.MaxY())
  }

  /** `r` moved so that its named position lands on `p`: only the origin
      changes, and reading the position back gives `p`. */
  function WithPosition(r: Rect, pos: Position, p: Point): (moved: Rect)
    requires r.Valid()
    ensures moved.size == r.size
    ensures PositionOf(moved, pos) == p
  {
    var w, h := r.size.width, r.size.height;
    match pos
    case TopLeft => r.(origin := p)
    case TopCenter => r.(origin := Point(p.x - w * 0.5, p.y))
    case TopRight => r.(origin := Point(p.x - w, p.y))
    case CenterLeft => r.(origin := Point(p.x, p.y - h * 0.5))
    case Center => r.(origin := Point(p.x - w * 0.5, p.y - h * 0.5))
    case CenterRight => r.(origin := Point(p.x - w, p.y - h * 0.5))
    case BottomLeft => r.(origin := Point(p.x, p.y - h))
    case BottomCenter => r.(origin := Point(p.x - w * 0.5, p.y - h))
    case BottomRight => r.(origin := Point(p.x - w, p.y - h))
  }

  /** Setting a position to its current value changes nothing. */
  lemma GetThenSet(r: Rect, pos: Position)
    requires r.Valid()
    ensures WithPosition(r, pos, PositionOf(r, pos)) == r
  {
  }

  /** The last of two sets of the same position wins. */
  lemma SetTwice(r: Rect, pos: Position, p: Point, q: Point)
    requires r.Valid()
    ensures WithPosition(WithPosition(r, pos, p), pos, q) == WithPosition(r, pos, q)
  {
  }

  /** Setting one position translates the whole rectangle: every position,
      and the origin, moves by the displacement of the one that was set. */
  lemma SetTranslates(r: Rect, pos: Position, p: Point, other: Position)
    requires r.Valid()
    ensures var d := Point(p.x - PositionOf(r, pos).x, p.y - PositionOf(r, pos).y);
            WithPosition(r, pos, p).origin == OffsetBy(r.origin, d.x, d.y) &&
            PositionOf(WithPosition(r, pos, p), other) == OffsetBy(PositionOf(r, other), d.x, d.y)
  {
  }

  /** Offsetting a position and setting it back moves the origin by the
      same offset. */
  lemma SetOffsetPosition(r: Rect, pos: Position, dx: real, dy: real)
    requires r.Valid()
    ensures WithPosition(r, pos, OffsetBy(PositionOf(r, pos), dx, dy)) ==
            r.(origin := OffsetBy(r.origin, dx, dy))
  {
  }

  /** The edge midpoints and the centre lie halfway between corners. */
  lemma Midpoints(r: Rect)
    requires r.Valid()
    ensures var tl, tr := PositionOf(r, TopLeft), PositionOf(r, TopRight);
            var bl, br := PositionOf(r, BottomLeft), PositionOf(r, BottomRight);
            PositionOf(r, Center) == Point((tl.x + br.x) * 0.5, (tl.y + br.y) * 0.5) &&
            PositionOf(r, TopCenter) == Point((tl.x + tr.x) * 0.5, tl.y) &&
            PositionOf(r, BottomCenter) == Point((bl.x + br.x) * 0.5, bl.y) &&
            PositionOf(r, CenterLeft) == Point(tl.x, (tl.y + bl.y) * 0.5) &&
            PositionOf(r, CenterRight) == Point(tr.x, (tr.y + br.y) * 0.5)
  {
  }

  /** The examples of the rectangle tests. */
  lemma PositionExamples()
    ensures var r := Rect(Point(10.0, 10.0), Size(100.0, 100.0));
            r.Valid() &&
            PositionOf(r, TopLeft) == Point(10.0, 10.0) &&
            PositionOf(r, TopRight) == Point(110.0, 10.0) &&
            PositionOf(r, BottomLeft) == Point(10.0, 110.0) &&
            PositionOf(r, BottomRight) == Point(110.0, 110.0) &&
            PositionOf(r, TopCenter) == Point(60.0, 10.0) &&
            PositionOf(r, CenterRight) == Point(110.0, 60.0) &&
            PositionOf(r, CenterLeft) == Point(10.0, 60.0) &&
            PositionOf(r, BottomCenter) == Point(60.0, 110.0)
  {
  }

  // ----- Direction-aware positions -----

  datatype SemanticPosition =
    | TopLeading | TopTrailing
    | CenterLeading | CenterTrailing
    | BottomLeading | BottomTrailing

  predicate IsLeading(sem: SemanticPosition) {
    sem == TopLeading || sem == CenterLeading || sem == BottomLeading
  }

  /** The same row, on the other side. */
  function Opposite(sem: SemanticPosition): SemanticPosition {
    match sem
    case TopLeading => TopTrailing
    case TopTrailing => TopLeading
    case CenterLeading => CenterTrailing
    case CenterTrailing => CenterLeading
    case BottomLeading => BottomTrailing
    case BottomTrailing => BottomLeading
  }

  /** The same row of physical positions, with left and right exchanged. */
  function Mirrored(pos: Position): Position {
    match pos
    case TopLeft => TopRight
    case TopRight => TopLeft
    case CenterLeft => CenterRight
    case CenterRight => CenterLeft
    case BottomLeft => BottomRight
    case BottomRight => BottomLeft
    case _ => pos
  }

  predicate OnLeftEdge(pos: Position) {
    pos == TopLeft || pos == CenterLeft || pos == BottomLeft
  }

  /** The physical position a semantic one stands for: leading is left and
      trailing is right in a left-to-right layout, and the other way round
      in a right-to-left one. It is never a centred column. */
  function Resolve(sem: SemanticPosition, rtl: bool): (pos: Position)
    ensures OnLeftEdge(pos) <==> IsLeading(sem) != rtl
    ensures OnLeftEdge(Mirrored(pos)) <==> IsLeading(sem) == rtl
  {
    match sem
    case TopLeading => if rtl then TopRight else TopLeft
    case TopTrailing => if rtl then TopLeft else TopRight
    case CenterLeading => if rtl then CenterRight else CenterLeft
    case CenterTrailing => if rtl then CenterLeft else CenterRight
    case BottomLeading => if rtl then BottomRight else BottomLeft
    case BottomTrailing => if rtl then BottomLeft else BottomRight
  }

  /** The point at a semantic position: a leading position sits on the left
      edge in a left-to-right layout and on the right edge in a right-to-left
      one (trailing the reverse); its row never depends on the direction. */
  function SemanticPositionOf(r: Rect, sem: SemanticPosition, rtl: bool): (pt: Point)
    requires r.Valid()
    ensures pt.x == if IsLeading(sem) != rtl then r.MinX() else r.MaxX()
    ensures pt.y ==
            if sem == TopLeading || sem == TopTrailing then r.MinY()
            else if sem == CenterLeading || sem == CenterTrailing then r.MidY()
            else r.MaxY()
  {
    PositionOf(r, Resolve(sem, rtl))
  }

  /** `r` moved so that its semantic position, read in the same direction,
      lands on `p`; only the origin changes. */
  function WithSemanticPosition(r: Rect, sem: SemanticPosition, p: Point, rtl: bool): (moved: Rect)
    requires r.Valid()
    ensures moved.size == r.size
    ensures SemanticPositionOf(moved, sem, rtl) == p
  {
    WithPosition(r, Resolve(sem, rtl), p)
  }

  /** Right to left resolves to the mirror image of left to right, and the
      mirror image of a position is its reflection across the vertical
      centre line. */
  lemma RightToLeftMirrors(r: Rect, sem: SemanticPosition)
    requires r.Valid()
    ensures Resolve(sem, true) == Mirrored(Resolve(sem, false))
    ensures SemanticPositionOf(r, sem, true) ==
            Point(r.MinX() + r.MaxX() - SemanticPositionOf(r, sem, false).x,
                  SemanticPositionOf(r, sem, false).y)
  {
  }

  /** Leading in one direction is trailing in the other, for reading and
      for setting. */
  lemma LeadingTrailingSwap(r: Rect, sem: SemanticPosition, p: Point, rtl: bool)
    requires r.Valid()
    ensures Resolve(Opposite(sem), !rtl) == Resolve(sem, rtl)
    ensures SemanticPositionOf(r, Opposite(sem), !rtl) == SemanticPositionOf(r, sem, rtl)
    ensures WithSemanticPosition(r, Opposite(sem), p, !rtl) == WithSemanticPosition(r, sem, p, rtl)
  {
  }

  /** Setting a semantic position to its current value changes nothing. */
  lemma SemanticGetThenSet(r: Rect, sem: SemanticPosition, rtl: bool)
    requires r.Valid()
    ensures WithSemanticPosition(r, sem, SemanticPositionOf(r, sem, rtl), rtl) == r
  {
    GetThenSet(r, Resolve(sem, rtl));
  }

  /** Moving a semantic position by a leading offset in the same direction
      moves the origin by that leading offset. */
  lemma SetLeadingOffsetPosition(r: Rect, sem: SemanticPosition, rtl: bool, dx: real, dy: real)
    requires r.Valid()
    ensures WithSemanticPosition(r, sem, LeadingOffsetBy(SemanticPositionOf(r, sem, rtl), rtl, dx, dy), rtl) ==
            r.(origin := LeadingOffsetBy(r.origin, rtl, dx, dy))
  {
  }

  /** The examples of the semantic-position tests, in both directions; the
      centred positions take no direction at all. */
  lemma SemanticPositionExamples()
    ensures var r := Rect(Point(10.0, 10.0), Size(100.0, 100.0));
            r.Valid() &&
            SemanticPositionOf(r, TopLeading, false) == Point(10.0, 10.0) &&
            SemanticPositionOf(r, TopTrailing, false) == Point(110.0, 10.0) &&
            SemanticPositionOf(r, BottomLeading, false) == Point(10.0, 110.0) &&
            SemanticPositionOf(r, BottomTrailing, false) == Point(110.0, 110.0) &&
            SemanticPositionOf(r, CenterTrailing, false) == Point(110.0, 60.0) &&
            SemanticPositionOf(r, CenterLeading, false) == Point(10.0, 60.0) &&
            SemanticPositionOf(r, TopLeading, true) == Point(110.0, 10.0) &&
            SemanticPositionOf(r, TopTrailing, true) == Point(10.0, 10.0) &&
            SemanticPositionOf(r, BottomLeading, true) == Point(110.0, 110.0) &&
            SemanticPositionOf(r, BottomTrailing, true) == Point(10.0, 110.0) &&
            SemanticPositionOf(r, CenterTrailing, true) == Point(10.0, 60.0) &&
            SemanticPositionOf(r, CenterLeading, true) == Point(110.0, 60.0) &&
            PositionOf(r, TopCenter) == Point(60.0, 10.0) &&
            PositionOf(r, BottomCenter) == Point(60.0, 110.0)
  {
  }

  // ----- A rectangle variable updated in place -----

  /** A stored rectangle whose position setters rewrite its origin in place,
      as the property setters of a mutable rectangle value do. */
  class MutableRect {
    var origin: Point
    var size: Size

    function Value(): Rect
      reads this
    {
      Rect(origin, size)
    }

    constructor (r: Rect)
      ensures Value() == r
    {
      origin := r.origin;
      size := r.size;
    }

    /** Assign the origin to the target point, then pull it back by the
        part of the size that lies between the origin and the position. */
    method SetPosition(pos: Position, p: Point)
      requires Value().Valid()
      modifies this
      ensures size == old(size)
      ensures Value() == WithPosition(old(Value()), pos, p)
    {
      match pos
      case TopLeft =>
        origin := p;
      case TopCenter =>
        origin := p;
        origin := origin.(x := origin.x - size.width * 0.5);
      case TopRight =>
        origin := p;
        origin := origin.(x := origin.x - size.width);
      case CenterLeft =>
        origin := p;
        origin := origin.(y := origin.y - size.height * 0.5);
      case Center =>
        origin := Point(p.x - size.width * 0.5, p.y - size.height * 0.5);
      case CenterRight =>
        origin := Point(p.x - size.width, p.y - size.height * 0.5);
      case BottomLeft =>
        origin := p;
        origin := origin.(y := origin.y - size.height);
      case BottomCenter =>
        origin := Point(p.x - size.width * 0.5, p.y - size.height);
      case BottomRight =>
        origin := Point(p.x - size.width, p.y - size.height);
    }

    /** Set a semantic position through the physical setter the direction
        selects. */
    method SetSemanticPosition(sem: SemanticPosition, p: Point, rtl: bool)
      requires Value().Valid()
      modifies this
      ensures size == old(size)
      ensures Value() == WithSemanticPosition(old(Value()), sem, p, rtl)
    {
      SetPosition(Resolve(sem, rtl), p);
    }
  }
}
