/** Field geometry (field-geometry.ts): from normalised boxes on the visible page to PDF user space
    (sections 7.7.3.3 and 8.3 of ISO 32000-1), over exact real numbers. */
module FieldGeometry {

  datatype Rect = Rect(x: real, y: real, width: real, height: real)

  datatype Point = Point(x: real, y: real)

  datatype Size = Size(width: real, height: real)

  // ---------------------------------------------------------------- rotation

  /** The remainder of JavaScript's `%`: it has the sign of the dividend. */
  function Remainder(a: int, b: int): int
    requires b > 0
  {
    if a >= 0 then a % b else -((-a) % b)
  }

  /** Math.round: halves go up. */
  function Round(x: real): int {
    (x + 0.5).Floor
  }

  function NormalizeRotation(angle: real): int {
    Remainder(Remainder(Round(angle / 90.0) * 90, 360) + 360, 360)
  }

  lemma RemainderWraps(m: int)
    ensures Remainder(Remainder(m * 90, 360) + 360, 360) == (m % 4) * 90
  {
    if m >= 0 {
      QuarterRemainder(m);
    } else {
      QuarterRemainder(-m);
      NegatedQuarter(m);
    }
  }

  lemma QuarterRemainder(m: nat)
    ensures (m * 90) % 360 == m % 4 * 90
  {
    assert m * 90 == 360 * (m / 4) + 90 * (m % 4);
  }

  lemma NegatedQuarter(m: int)
    ensures m % 4 == if (-m) % 4 == 0 then 0 else 4 - (-m) % 4
  {
    assert m == 4 * (-((-m) / 4)) - (-m) % 4;
  }

  /** One of the four quarter turns, the nearest one to the angle up to full turns. */
  lemma RotationIsNearestQuarter(angle: real)
    ensures var r := NormalizeRotation(angle);
            && QuarterTurn(r)
            && exists turns: int :: angle - 45.0 <= (r + 360 * turns) as real <= angle + 45.0
  {
    var m := Round(angle / 90.0);
    RemainderWraps(m);
    var turns := m / 4;
    assert NormalizeRotation(angle) + 360 * turns == 90 * m;
    assert (90 * m) as real == 90.0 * m as real;
    assert m as real <= angle / 90.0 + 0.5 < m as real + 1.0;
    assert angle - 45.0 <= (NormalizeRotation(angle) + 360 * turns) as real <= angle + 45.0;
  }

  lemma QuarterTurnsStay(r: int)
    requires QuarterTurn(r)
    ensures NormalizeRotation(r as real) == r
  {
    var m := r / 90;
    assert r as real / 90.0 == m as real;
    RemainderWraps(m);
  }

  // ---------------------------------------------------------------- points

  predicate QuarterTurn(r: int) {
    r == 0 || r == 90 || r == 180 || r == 270
  }

  function TurnedSize(box: Rect, r: int): Size {
    if r == 90 || r == 270 then Size(box.height, box.width) else Size(box.width, box.height)
  }

  function TurnedPoint(box: Rect, r: int, u: real, v: real): Point {
    if r == 0 then Point(box.x + u * box.width, box.y + box.height - v * box.height)
    else if r == 90 then Point(box.x + v * box.width, box.y + u * box.height)
    else if r == 180 then Point(box.x + (1.0 - u) * box.width, box.y + v * box.height)
    else Point(box.x + box.width - v * box.width, box.y + box.height - u * box.height)
  }

  function ViewSize(box: Rect, rotation: real): Size {
    TurnedSize(box, NormalizeRotation(rotation))
  }

  /** A point of the visible page (0..1, origin at the top left) in PDF user space. */
  function ViewToPdf(box: Rect, rotation: real, u: real, v: real): Point {
    TurnedPoint(box, NormalizeRotation(rotation), u, v)
  }

  /** Turned clockwise by r degrees, the page shows at its top left the corner of the box that r/90 quarter turns bring
      there, and at its top right the next one. */
  lemma TopCornersShown(box: Rect, r: int)
    requires QuarterTurn(r)
    ensures var left, right, bottom, top := box.x, box.x + box.width, box.y, box.y + box.height;
            && ViewToPdf(box, r as real, 0.0, 0.0)
               == (if r == 0 then Point(left, top) else if r == 90 then Point(left, bottom)
                   else if r == 180 then Point(right, bottom) else Point(right, top))
            && ViewToPdf(box, r as real, 1.0, 0.0)
               == (if r == 0 then Point(right, top) else if r == 90 then Point(left, top)
                   else if r == 180 then Point(left, bottom) else Point(right, bottom))
            && ViewToPdf(box, r as real, 0.0, 1.0)
               == (if r == 0 then Point(left, bottom) else if r == 90 then Point(right, bottom)
                   else if r == 180 then Point(right, top) else Point(left, top))
  {
    QuarterTurnsStay(r);
  }

  // ---------------------------------------------------------------- placement

  /** Rounded cosine and sine of a quarter turn. */
  function Cos(r: int): real {
    if r == 0 then 1.0 else if r == 180 then -1.0 else 0.0
  }

  function Sin(r: int): real {
    if r == 90 then 1.0 else if r == 270 then -1.0 else 0.0
  }

  /** Where a field's content goes; `anchor` is the lower left corner of the field as seen. */
  datatype Placement = Placement(contentWidth: real, contentHeight: real, rotate: int, anchor: Point) {
    function ToPage(lx: real, ly: real): Point {
      Point(anchor.x + lx * Cos(rotate) - ly * Sin(rotate), anchor.y + lx * Sin(rotate) + ly * Cos(rotate))
    }
  }

  function PlaceField(box: Rect, rotation: real, field: Rect): Placement {
    var r := NormalizeRotation(rotation);
    var view := ViewSize(box, r as real);
    Placement(field.width * view.width, field.height * view.height, r, ViewToPdf(box, r as real, field.x, field.y + field.height))
  }

  /** The same quantities in terms of the original rotation. */
  lemma PlaceFieldIs(box: Rect, rotation: real, field: Rect)
    ensures var p := PlaceField(box, rotation, field); var view := ViewSize(box, rotation);
            && p.rotate == NormalizeRotation(rotation)
            && p.contentWidth == field.width * view.width && p.contentHeight == field.height * view.height
            && p.anchor == ViewToPdf(box, rotation, field.x, field.y + field.height)
  {
    RotationIsNearestQuarter(rotation);
    QuarterTurnsStay(NormalizeRotation(rotation));
  }

  /** A view coordinate t that moves by dt moves the page coordinate t * w by l. */
  lemma Shifted(t: real, dt: real, w: real, l: real)
    requires l == dt * w
    ensures (t + dt) * w == t * w + l && (t - dt) * w == t * w - l
  {
    Distribute(t, dt, w);
    Distribute(t, -dt, w);
    Negate(dt, w);
  }

  lemma Distribute(a: real, b: real, c: real)
    ensures (a + b) * c == a * c + b * c
  {
  }

  lemma Negate(a: real, c: real)
    ensures (-a) * c == -(a * c)
  {
  }

  /** (lx, ly) turned by a quarter turn. */
  function Turned(r: int, lx: real, ly: real): Point {
    if r == 0 then Point(lx, ly) else if r == 90 then Point(-ly, lx) else if r == 180 then Point(-lx, -ly) else Point(ly, -lx)
  }

  lemma TurnedIs(r: int, lx: real, ly: real)
    requires QuarterTurn(r)
    ensures Turned(r, lx, ly) == Point(lx * Cos(r) - ly * Sin(r), lx * Sin(r) + ly * Cos(r))
  {
  }

  /** The page point `a` points right of and `b` points below the top left corner of the page as seen. */
  function FromCorner(box: Rect, r: int, a: real, b: real): Point {
    if r == 0 then Point(box.x + a, box.y + box.height - b)
    else if r == 90 then Point(box.x + b, box.y + a)
    else if r == 180 then Point(box.x + box.width - a, box.y + b)
    else Point(box.x + box.width - b, box.y + box.height - a)
  }

  lemma PointFromCorner(box: Rect, r: int, u: real, v: real, a: real, b: real)
    requires QuarterTurn(r) && a == u * TurnedSize(box, r).width && b == v * TurnedSize(box, r).height
    ensures TurnedPoint(box, r, u, v) == FromCorner(box, r, a, b)
  {
    if r == 0 || r == 180 {
      assert a == u * box.width && b == v * box.height;
      OneMinus(u, box.width);
    } else {
      assert a == u * box.height && b == v * box.width;
    }
  }

  lemma OneMinus(u: real, w: real)
    ensures (1.0 - u) * w == w - u * w
  {
    Distribute(1.0, -u, w);
    Negate(u, w);
  }

  /** Moving by (du, dv) on the visible page moves by the turned (lx, ly) on the PDF page. */
  lemma Displaced(box: Rect, r: int, u: real, v: real, du: real, dv: real, lx: real, ly: real)
    requires QuarterTurn(r) && lx == du * TurnedSize(box, r).width && ly == dv * TurnedSize(box, r).height
    ensures var p := TurnedPoint(box, r, u, v);
            TurnedPoint(box, r, u + du, v - dv) == Point(p.x + Turned(r, lx, ly).x, p.y + Turned(r, lx, ly).y)
  {
    var a, b := u * TurnedSize(box, r).width, v * TurnedSize(box, r).height;
    PointFromCorner(box, r, u, v, a, b);
    ShiftedFromCorner(box, r, u, v, du, dv, lx, ly, a, b);
    Moved(box, r, a, b, lx, ly);
  }

  lemma ShiftedFromCorner(box: Rect, r: int, u: real, v: real, du: real, dv: real, lx: real, ly: real, a: real, b: real)
    requires QuarterTurn(r) && lx == du * TurnedSize(box, r).width && ly == dv * TurnedSize(box, r).height
    requires a == u * TurnedSize(box, r).width && b == v * TurnedSize(box, r).height
    ensures TurnedPoint(box, r, u + du, v - dv) == FromCorner(box, r, a + lx, b - ly)
  {
    Shifted(u, du, TurnedSize(box, r).width, lx);
    Shifted(v, dv, TurnedSize(box, r).height, ly);
    PointFromCorner(box, r, u + du, v - dv, a + lx, b - ly);
  }

  lemma Moved(box: Rect, r: int, a: real, b: real, lx: real, ly: real)
    ensures var p := FromCorner(box, r, a, b);
            FromCorner(box, r, a + lx, b - ly) == Point(p.x + Turned(r, lx, ly).x, p.y + Turned(r, lx, ly).y)
  {
  }

  /** Local coordinates of the content and view coordinates of the page lead to the same point of the PDF. */
  lemma PlacementFollowsView(box: Rect, rotation: real, field: Rect, lx: real, ly: real)
    requires box.width > 0.0 && box.height > 0.0
    ensures var view := ViewSize(box, rotation);
            PlaceField(box, rotation, field).ToPage(lx, ly)
            == ViewToPdf(box, rotation, field.x + lx / view.width, field.y + field.height - ly / view.height)
  {
    PlaceFieldIs(box, rotation, field);
    RotationIsNearestQuarter(rotation);
    FollowsTurn(PlaceField(box, rotation, field), box, NormalizeRotation(rotation), field.x, field.y + field.height, lx, ly);
  }

  lemma FollowsTurn(p: Placement, box: Rect, r: int, u: real, v: real, lx: real, ly: real)
    requires QuarterTurn(r) && p.rotate == r && p.anchor == TurnedPoint(box, r, u, v) && box.width > 0.0 && box.height > 0.0
    ensures p.ToPage(lx, ly) == TurnedPoint(box, r, u + lx / TurnedSize(box, r).width, v - ly / TurnedSize(box, r).height)
  {
    var view := TurnedSize(box, r);
    var du, dv := lx / view.width, ly / view.height;
    Scaled(lx, view.width);
    Scaled(ly, view.height);
    Displaced(box, r, u, v, du, dv, lx, ly);
    ToPageTurns(p, lx, ly);
  }

  lemma ToPageTurns(p: Placement, lx: real, ly: real)
    requires QuarterTurn(p.rotate)
    ensures p.ToPage(lx, ly) == Point(p.anchor.x + Turned(p.rotate, lx, ly).x, p.anchor.y + Turned(p.rotate, lx, ly).y)
  {
    TurnedIs(p.rotate, lx, ly);
  }

  lemma Scaled(l: real, w: real)
    requires w > 0.0
    ensures l / w * w == l
  {
  }

  ghost predicate Inside(p: Point, box: Rect) {
    box.x <= p.x <= box.x + box.width && box.y <= p.y <= box.y + box.height
  }

  lemma Fraction(t: real, w: real)
    requires 0.0 <= t <= 1.0 && w >= 0.0
    ensures 0.0 <= t * w <= w && 0.0 <= (1.0 - t) * w <= w
  {
  }

  lemma TurnStaysInside(box: Rect, r: int, u: real, v: real)
    requires QuarterTurn(r) && box.width >= 0.0 && box.height >= 0.0 && 0.0 <= u <= 1.0 && 0.0 <= v <= 1.0
    ensures Inside(TurnedPoint(box, r, u, v), box)
  {
    Fraction(u, TurnedSize(box, r).width);
    Fraction(v, TurnedSize(box, r).height);
    ScaledStaysInside(box, r, u, v, u * TurnedSize(box, r).width, v * TurnedSize(box, r).height);
  }

  lemma ScaledStaysInside(box: Rect, r: int, u: real, v: real, a: real, b: real)
    requires QuarterTurn(r) && a == u * TurnedSize(box, r).width && b == v * TurnedSize(box, r).height
    requires 0.0 <= a <= TurnedSize(box, r).width && 0.0 <= b <= TurnedSize(box, r).height
    ensures Inside(TurnedPoint(box, r, u, v), box)
  {
    PointFromCorner(box, r, u, v, a, b);
    CornerStaysInside(box, r, a, b);
  }

  lemma CornerStaysInside(box: Rect, r: int, a: real, b: real)
    requires QuarterTurn(r) && 0.0 <= a <= TurnedSize(box, r).width && 0.0 <= b <= TurnedSize(box, r).height
    ensures Inside(FromCorner(box, r, a, b), box)
  {
  }

  /** A point of a field that lies on the visible page is a point of the PDF page. */
  lemma PlacementStaysInside(box: Rect, rotation: real, field: Rect, lx: real, ly: real)
    requires box.width > 0.0 && box.height > 0.0
    requires 0.0 <= field.x && 0.0 <= field.width && field.x + field.width <= 1.0
    requires 0.0 <= field.y && 0.0 <= field.height && field.y + field.height <= 1.0
    requires var p := PlaceField(box, rotation, field); 0.0 <= lx <= p.contentWidth && 0.0 <= ly <= p.contentHeight
    ensures Inside(PlaceField(box, rotation, field).ToPage(lx, ly), box)
  {
    PlaceFieldIs(box, rotation, field);
    RotationIsNearestQuarter(rotation);
    PlacedInside(PlaceField(box, rotation, field), box, NormalizeRotation(rotation), field, lx, ly);
  }

  lemma PlacedInside(p: Placement, box: Rect, r: int, field: Rect, lx: real, ly: real)
    requires QuarterTurn(r) && p.rotate == r && p.anchor == TurnedPoint(box, r, field.x, field.y + field.height)
    requires box.width > 0.0 && box.height > 0.0
    requires 0.0 <= field.x && field.x + field.width <= 1.0 && 0.0 <= field.y && field.y + field.height <= 1.0
    requires 0.0 <= lx <= field.width * TurnedSize(box, r).width && 0.0 <= ly <= field.height * TurnedSize(box, r).height
    ensures Inside(p.ToPage(lx, ly), box)
  {
    Portion(lx, field.width, TurnedSize(box, r).width);
    Portion(ly, field.height, TurnedSize(box, r).height);
    InsideAt(p, box, r, field.x, field.y + field.height, lx, ly, field.width, field.height);
  }

  lemma InsideAt(p: Placement, box: Rect, r: int, u: real, v: real, lx: real, ly: real, w: real, h: real)
    requires QuarterTurn(r) && p.rotate == r && p.anchor == TurnedPoint(box, r, u, v) && box.width > 0.0 && box.height > 0.0
    requires 0.0 <= lx / TurnedSize(box, r).width <= w && 0.0 <= ly / TurnedSize(box, r).height <= h
    requires 0.0 <= u && u + w <= 1.0 && h <= v <= 1.0
    ensures Inside(p.ToPage(lx, ly), box)
  {
    FollowsTurn(p, box, r, u, v, lx, ly);
    TurnStaysInside(box, r, u + lx / TurnedSize(box, r).width, v - ly / TurnedSize(box, r).height);
  }

  lemma Portion(l: real, part: real, whole: real)
    requires whole > 0.0 && 0.0 <= l <= part * whole
    ensures 0.0 <= l / whole <= part
  {
  }

  function DistanceSquared(p: Point, q: Point): real {
    (p.x - q.x) * (p.x - q.x) + (p.y - q.y) * (p.y - q.y)
  }

  /** Content is neither stretched nor shrunk. */
  lemma PlacementKeepsDistances(box: Rect, rotation: real, field: Rect, a: Point, b: Point)
    ensures var p := PlaceField(box, rotation, field);
            DistanceSquared(p.ToPage(a.x, a.y), p.ToPage(b.x, b.y)) == DistanceSquared(a, b)
  {
    PlaceFieldIs(box, rotation, field);
    RotationIsNearestQuarter(rotation);
    TurnKeepsDistances(PlaceField(box, rotation, field), a, b);
  }

  lemma TurnKeepsDistances(p: Placement, a: Point, b: Point)
    requires QuarterTurn(p.rotate)
    ensures DistanceSquared(p.ToPage(a.x, a.y), p.ToPage(b.x, b.y)) == DistanceSquared(a, b)
  {
    var s, t := p.ToPage(a.x, a.y), p.ToPage(b.x, b.y);
    var dx, dy := a.x - b.x, a.y - b.y;
    assert s.x - t.x == dx * Cos(p.rotate) - dy * Sin(p.rotate);
    assert s.y - t.y == dx * Sin(p.rotate) + dy * Cos(p.rotate);
  }
}
