/** Where a field goes (anchors.ts): on the marker it came from, or in a corner of the page. */
module FieldBoxes {
  import opened Basics
  import opened EnvelopeFields
  import opened FieldGeometry
  import opened Anchors
  import opened AnchorTheorems

  datatype Corner = BottomRight | BottomLeft | TopRight | TopLeft

  const SIGNATURE_OVERLAP := 0.2
  const CORNER_MARGIN := 18.0
  const CORNER_GAP := 6.0

  /** Size of a field in points of the visible page. */
  function FieldSize(kind: FieldType): Size {
    match kind
    case SignatureField => Size(150.0, 42.0)
    case InitialsField => Size(56.0, 28.0)
    case NameField => Size(170.0, 16.0)
    case DateField => Size(90.0, 16.0)
  }

  function RealMin(a: real, b: real): real {
    if a < b then a else b
  }

  function RealMax(a: real, b: real): real {
    if a > b then a else b
  }

  function SizedFor(kind: FieldType, viewWidth: real, viewHeight: real): Size
    requires viewWidth > 0.0 && viewHeight > 0.0
  {
    Size(RealMin(1.0, FieldSize(kind).width / viewWidth), RealMin(1.0, FieldSize(kind).height / viewHeight))
  }

  function Fit(box: Box): Box {
    box.(x := RealMin(RealMax(0.0, box.x), 1.0 - box.width), y := RealMin(RealMax(0.0, box.y), 1.0 - box.height))
  }

  predicate Upright(kind: FieldType) {
    kind.SignatureField? || kind.InitialsField?
  }

  /** Signatures rest on the marker's baseline and overlap it a little; names and dates replace the marker. */
  function Unfitted(a: FoundAnchor, viewWidth: real, viewHeight: real): Box
    requires viewWidth > 0.0 && viewHeight > 0.0
  {
    var size := SizedFor(a.kind, viewWidth, viewHeight);
    var y := if Upright(a.kind) then a.box.baseline - size.height * (1.0 - SIGNATURE_OVERLAP)
             else a.box.y + a.box.height / 2.0 - size.height / 2.0;
    Box(a.box.x, y, size.width, size.height)
  }

  function FieldFromAnchor(a: FoundAnchor, viewWidth: real, viewHeight: real): Box
    requires viewWidth > 0.0 && viewHeight > 0.0
  {
    Fit(Unfitted(a, viewWidth, viewHeight))
  }

  /** `slot` counts the roles already in this corner of the page. */
  function CornerInitials(corner: Corner, slot: nat, viewWidth: real, viewHeight: real): Box
    requires viewWidth > 0.0 && viewHeight > 0.0
  {
    var size := SizedFor(InitialsField, viewWidth, viewHeight);
    var my := CORNER_MARGIN / viewHeight;
    Fit(Box(CornerX(AtRight(corner), slot, CORNER_MARGIN / viewWidth, size.width, CORNER_GAP / viewWidth),
            if AtBottom(corner) then 1.0 - my - size.height else my, size.width, size.height))
  }

  predicate AtRight(corner: Corner) {
    corner.BottomRight? || corner.TopRight?
  }

  predicate AtBottom(corner: Corner) {
    corner.BottomRight? || corner.BottomLeft?
  }

  function CornerX(right: bool, slot: nat, margin: real, width: real, gap: real): real {
    var step := slot as real * (width + gap);
    if right then 1.0 - margin - width - step else margin + step
  }

  // ---------------------------------------------------------------- every box lies on the page

  ghost predicate OnPage(box: Box) {
    && 0.0 <= box.x && 0.0 <= box.y && 0.0 < box.width && 0.0 < box.height
    && box.x + box.width <= 1.0 && box.y + box.height <= 1.0
  }

  lemma FitIsOnPage(box: Box)
    requires 0.0 < box.width <= 1.0 && 0.0 < box.height <= 1.0
    ensures OnPage(Fit(box))
    ensures OnPage(box) ==> Fit(box) == box
  {
  }

  lemma SizePositive(kind: FieldType, viewWidth: real, viewHeight: real)
    requires viewWidth > 0.0 && viewHeight > 0.0
    ensures var s := SizedFor(kind, viewWidth, viewHeight); 0.0 < s.width <= 1.0 && 0.0 < s.height <= 1.0
  {
    Quotient(FieldSize(kind).width, viewWidth);
    Quotient(FieldSize(kind).height, viewHeight);
  }

  lemma Quotient(a: real, b: real)
    requires a > 0.0 && b > 0.0
    ensures a / b > 0.0
  {
  }

  lemma BoxesAreOnPage(a: FoundAnchor, corner: Corner, slot: nat, viewWidth: real, viewHeight: real)
    requires viewWidth > 0.0 && viewHeight > 0.0
    ensures OnPage(FieldFromAnchor(a, viewWidth, viewHeight))
    ensures OnPage(CornerInitials(corner, slot, viewWidth, viewHeight))
  {
    SizePositive(a.kind, viewWidth, viewHeight);
    SizePositive(InitialsField, viewWidth, viewHeight);
    FitIsOnPage(Unfitted(a, viewWidth, viewHeight));
  }

  // ---------------------------------------------------------------- boxes stacked in one corner

  ghost predicate Apart(p: Box, q: Box) {
    p.x + p.width <= q.x || q.x + q.width <= p.x || p.y + p.height <= q.y || q.y + q.height <= p.y
  }

  /** The left edge of a corner box in points, on a page at least as wide as the box. */
  function LeftEdge(corner: Corner, slot: nat, viewWidth: real): real {
    var x := if AtRight(corner) then viewWidth - 74.0 - 62.0 * slot as real else 18.0 + 62.0 * slot as real;
    RealMin(RealMax(0.0, x), viewWidth - 56.0)
  }

  lemma EdgeInPoints(right: bool, slot: nat, w: real, margin: real, width: real, gap: real)
    requires w > 0.0 && margin * w == 18.0 && width * w == 56.0 && gap * w == 6.0
    ensures CornerX(right, slot, margin, width, gap) * w
            == if right then w - 74.0 - 62.0 * slot as real else 18.0 + 62.0 * slot as real
  {
    var n := slot as real;
    var step := n * (width + gap);
    assert (width + gap) * w == 62.0;
    assert step * w == n * ((width + gap) * w);
    if right {
      assert (1.0 - margin - width - step) * w == w - margin * w - width * w - step * w;
    }
  }

  lemma CornerXIs(corner: Corner, slot: nat, viewWidth: real, viewHeight: real)
    requires viewWidth > 0.0 && viewHeight > 0.0
    ensures var b := CornerInitials(corner, slot, viewWidth, viewHeight);
            && b.width == SizedFor(InitialsField, viewWidth, viewHeight).width
            && b.x == RealMin(RealMax(0.0, CornerX(AtRight(corner), slot, 18.0 / viewWidth, b.width, 6.0 / viewWidth)), 1.0 - b.width)
  {
  }

  /** On a page `w` points wide the box starts `p` points from the left and is as wide as initials are. */
  ghost predicate InPoints(b: Box, w: real, p: real) {
    b.x * w == p && b.width * w == 56.0
  }

  lemma EdgeFromX(b: Box, x: real, w: real, p: real)
    requires w >= 56.0 && b.x == RealMin(RealMax(0.0, x), 1.0 - b.width) && b.width == 56.0 / w && x * w == p
    ensures InPoints(b, w, RealMin(RealMax(0.0, p), w - 56.0))
  {
    WidthInPoints(w);
    TopInPoints(w);
    ClampScales(x, 1.0 - b.width, w);
  }

  lemma InitialsWidth(viewWidth: real, viewHeight: real)
    requires viewWidth >= 56.0 && viewHeight > 0.0
    ensures SizedFor(InitialsField, viewWidth, viewHeight).width == 56.0 / viewWidth
  {
    WidthInPoints(viewWidth);
  }

  /** Stacked boxes start at their left edges. */
  lemma CornerLeftEdge(corner: Corner, slot: nat, viewWidth: real, viewHeight: real)
    requires viewWidth >= 56.0 && viewHeight > 0.0
    ensures InPoints(CornerInitials(corner, slot, viewWidth, viewHeight), viewWidth, LeftEdge(corner, slot, viewWidth))
  {
    CornerXIs(corner, slot, viewWidth, viewHeight);
    InitialsWidth(viewWidth, viewHeight);
    WidthInPoints(viewWidth);
    EdgeInPoints(AtRight(corner), slot, viewWidth, 18.0 / viewWidth, 56.0 / viewWidth, 6.0 / viewWidth);
    EdgeFromX(CornerInitials(corner, slot, viewWidth, viewHeight),
              CornerX(AtRight(corner), slot, 18.0 / viewWidth, 56.0 / viewWidth, 6.0 / viewWidth), viewWidth,
              if AtRight(corner) then viewWidth - 74.0 - 62.0 * slot as real else 18.0 + 62.0 * slot as real);
  }

  lemma TopInPoints(w: real)
    requires w >= 56.0
    ensures (1.0 - 56.0 / w) * w == w - 56.0
  {
  }

  /** On a page narrower than a box they cover its whole width. */
  lemma NarrowPage(corner: Corner, slot: nat, viewWidth: real, viewHeight: real)
    requires 0.0 < viewWidth < 56.0 && viewHeight > 0.0
    ensures var b := CornerInitials(corner, slot, viewWidth, viewHeight); b.x == 0.0 && b.width == 1.0
  {
    Over(56.0, viewWidth);
  }

  lemma Over(a: real, b: real)
    requires 0.0 < b < a
    ensures a / b > 1.0
  {
  }

  lemma WidthInPoints(w: real)
    requires w >= 56.0
    ensures 56.0 / w <= 1.0 && 56.0 / w * w == 56.0
    ensures 18.0 / w * w == 18.0 && 6.0 / w * w == 6.0
  {
  }

  lemma ClampScales(x: real, top: real, w: real)
    requires w > 0.0
    ensures RealMin(RealMax(0.0, x), top) * w == RealMin(RealMax(0.0, x * w), top * w)
  {
  }

  /** Boxes of one corner lie side by side, so they are apart when their left edges differ by a box. */
  lemma ApartInPoints(corner: Corner, i: nat, j: nat, viewWidth: real, viewHeight: real)
    requires viewWidth >= 56.0 && viewHeight > 0.0
    ensures var p, q := LeftEdge(corner, i, viewWidth), LeftEdge(corner, j, viewWidth);
            Apart(CornerInitials(corner, i, viewWidth, viewHeight), CornerInitials(corner, j, viewWidth, viewHeight))
            <==> p + 56.0 <= q || q + 56.0 <= p
  {
    var b, c := CornerInitials(corner, i, viewWidth, viewHeight), CornerInitials(corner, j, viewWidth, viewHeight);
    CornerLeftEdge(corner, i, viewWidth, viewHeight);
    CornerLeftEdge(corner, j, viewWidth, viewHeight);
    SameRow(corner, i, j, viewWidth, viewHeight);
    ApartInRow(b, c, viewWidth, LeftEdge(corner, i, viewWidth), LeftEdge(corner, j, viewWidth));
  }

  lemma ApartInRow(b: Box, c: Box, w: real, p: real, q: real)
    requires w > 0.0 && b.y == c.y && b.height == c.height > 0.0 && b.width == c.width
    requires InPoints(b, w, p) && InPoints(c, w, q)
    ensures Apart(b, c) <==> p + 56.0 <= q || q + 56.0 <= p
  {
    SidewaysInPoints(b.x, c.x, b.width, w);
    SidewaysInPoints(c.x, b.x, b.width, w);
  }

  lemma SidewaysInPoints(x: real, y: real, width: real, w: real)
    requires w > 0.0
    ensures x + width <= y <==> x * w + width * w <= y * w
  {
  }

  lemma SameRow(corner: Corner, i: nat, j: nat, viewWidth: real, viewHeight: real)
    requires viewWidth > 0.0 && viewHeight > 0.0
    ensures var b, c := CornerInitials(corner, i, viewWidth, viewHeight), CornerInitials(corner, j, viewWidth, viewHeight);
            b.y == c.y && b.height == c.height && b.width == c.width && b.height > 0.0
  {
    SizePositive(InitialsField, viewWidth, viewHeight);
  }

  ghost predicate PairwiseApart(corner: Corner, n: nat, viewWidth: real, viewHeight: real)
    requires viewWidth > 0.0 && viewHeight > 0.0
  {
    forall i: nat, j: nat | i < j < n ::
      Apart(CornerInitials(corner, i, viewWidth, viewHeight), CornerInitials(corner, j, viewWidth, viewHeight))
  }

  lemma EdgesFarApart(corner: Corner, i: nat, j: nat, n: nat, viewWidth: real)
    requires i < j < n && viewWidth >= 62.0 * n as real + 6.0
    ensures var p, q := LeftEdge(corner, i, viewWidth), LeftEdge(corner, j, viewWidth); p + 56.0 <= q || q + 56.0 <= p
  {
    assert i as real + 1.0 <= j as real <= n as real - 1.0;
  }

  lemma LastEdgesTooClose(corner: Corner, n: nat, viewWidth: real)
    requires n >= 2 && 56.0 <= viewWidth < 62.0 * n as real + 6.0
    ensures var p, q := LeftEdge(corner, n - 2, viewWidth), LeftEdge(corner, n - 1, viewWidth); !(p + 56.0 <= q || q + 56.0 <= p)
  {
    assert (n - 2) as real == n as real - 2.0 && (n - 1) as real == n as real - 1.0;
  }

  /** The automatic initials of n roles in one corner are pairwise disjoint exactly when there is at most one,
      or the page is at least 62 n + 6 points wide (templates allow ten roles; A4 has room for nine). */
  lemma CornerHasRoom(corner: Corner, n: nat, viewWidth: real, viewHeight: real)
    requires viewWidth > 0.0 && viewHeight > 0.0
    ensures PairwiseApart(corner, n, viewWidth, viewHeight) <==> n <= 1 || viewWidth >= 62.0 * n as real + 6.0
  {
    if n >= 2 {
      if viewWidth >= 62.0 * n as real + 6.0 {
        forall i: nat, j: nat | i < j < n
          ensures Apart(CornerInitials(corner, i, viewWidth, viewHeight), CornerInitials(corner, j, viewWidth, viewHeight))
        {
          EdgesFarApart(corner, i, j, n, viewWidth);
          ApartInPoints(corner, i, j, viewWidth, viewHeight);
        }
      } else {
        LastTwoOverlap(corner, n, viewWidth, viewHeight);
      }
    }
  }

  lemma LastTwoOverlap(corner: Corner, n: nat, viewWidth: real, viewHeight: real)
    requires n >= 2 && 0.0 < viewWidth < 62.0 * n as real + 6.0 && viewHeight > 0.0
    ensures !Apart(CornerInitials(corner, n - 2, viewWidth, viewHeight), CornerInitials(corner, n - 1, viewWidth, viewHeight))
  {
    if viewWidth >= 56.0 {
      LastEdgesTooClose(corner, n, viewWidth);
      ApartInPoints(corner, n - 2, n - 1, viewWidth, viewHeight);
    } else {
      NarrowPage(corner, n - 2, viewWidth, viewHeight);
      NarrowPage(corner, n - 1, viewWidth, viewHeight);
      SameRow(corner, n - 2, n - 1, viewWidth, viewHeight);
    }
  }

  // ---------------------------------------------------------------- where the boxes are, in points

  /** The nominal size of a field in points. */
  ghost predicate Nominal(kind: FieldType, width: real, height: real) {
    match kind
    case SignatureField => width == 150.0 && height == 42.0
    case InitialsField => width == 56.0 && height == 28.0
    case NameField => width == 170.0 && height == 16.0
    case DateField => width == 90.0 && height == 16.0
  }

  lemma Scaled(q: real, page: real)
    requires q > 1.0 && page > 0.0
    ensures q * page > page
  {
    assert (q - 1.0) * page > 0.0;
  }

  lemma ShareInPoints(size: real, page: real)
    requires size > 0.0 && page > 0.0
    ensures RealMin(1.0, size / page) * page == if page < size then page else size
  {
    assert size / page * page == size;
    if page < size {
      Over(size, page);
    } else if size / page > 1.0 {
      Scaled(size / page, page);
    }
  }

  /** A field has its nominal size, as far as the page is large enough. */
  lemma FieldIsNominal(a: FoundAnchor, w: real, h: real, width: real, height: real)
    requires w > 0.0 && h > 0.0 && Nominal(a.kind, width, height)
    ensures var b := FieldFromAnchor(a, w, h);
            && b.width * w == (if w < width then w else width)
            && b.height * h == (if h < height then h else height)
  {
    ShareInPoints(width, w);
    ShareInPoints(height, h);
  }

  /** Signatures and initials start where their marker starts and hang a fifth below its baseline, names and dates are
      centred on the marker's line; what would leave the page is pushed back to its edge and no further. */
  ghost predicate Follows(b: Box, a: FoundAnchor, top: real) {
    && (a.kind == SignatureField || a.kind == InitialsField ==> top + b.height - 0.2 * b.height == a.box.baseline)
    && (a.kind == NameField || a.kind == DateField ==> top + b.height / 2.0 == a.box.y + a.box.height / 2.0)
    && Pushed(b.x, a.box.x, b.width) && Pushed(b.y, top, b.height)
  }

  /** `q` is `p`, unless a stretch of this length at `p` leaves 0..1 at one end: then it touches that end. */
  ghost predicate Pushed(q: real, p: real, length: real) {
    && (0.0 <= p && p + length <= 1.0 ==> q == p)
    && (p < 0.0 ==> q == 0.0)
    && (p + length > 1.0 && p >= 0.0 ==> q + length == 1.0)
  }

  lemma FieldFollowsMarker(a: FoundAnchor, w: real, h: real)
    requires w > 0.0 && h > 0.0
    ensures exists top :: Follows(FieldFromAnchor(a, w, h), a, top)
  {
    SizePositive(a.kind, w, h);
    assert Follows(FieldFromAnchor(a, w, h), a, Unfitted(a, w, h).y);
  }

  /** How far a box is from the two edges that its corner names, in points. */
  ghost predicate InsetBy(b: Box, corner: Corner, w: real, h: real, across: real, down: real) {
    match corner
    case BottomRight => (b.x + b.width) * w == w - across && (b.y + b.height) * h == h - down
    case BottomLeft => b.x * w == across && (b.y + b.height) * h == h - down
    case TopRight => (b.x + b.width) * w == w - across && b.y * h == down
    case TopLeft => b.x * w == across && b.y * h == down
  }

  /** Automatic initials are 56 by 28 points, 18 points from the two edges of their corner, each further role 62 points
      further in, on every page that has the room. */
  lemma CornerIsInset(corner: Corner, slot: nat, w: real, h: real)
    requires w >= 74.0 + 62.0 * slot as real && h >= 46.0
    ensures var b := CornerInitials(corner, slot, w, h);
            && b.width * w == 56.0 && b.height * h == 28.0
            && InsetBy(b, corner, w, h, 18.0 + 62.0 * slot as real, 18.0)
  {
    CornerLeftEdge(corner, slot, w, h);
    ShareInPoints(28.0, h);
    CornerTop(corner, slot, w, h);
    var b := CornerInitials(corner, slot, w, h);
    assert (b.x + b.width) * w == b.x * w + b.width * w;
    assert (b.y + b.height) * h == b.y * h + b.height * h;
  }

  lemma CornerTop(corner: Corner, slot: nat, w: real, h: real)
    requires w > 0.0 && h >= 46.0
    ensures CornerInitials(corner, slot, w, h).y * h == match corner
                                                        case BottomRight => h - 46.0
                                                        case BottomLeft => h - 46.0
                                                        case TopRight => 18.0
                                                        case TopLeft => 18.0
  {
    var my, height := 18.0 / h, 28.0 / h;
    Over28(h);
    assert CornerInitials(corner, slot, w, h).height == height;
    var y := if AtBottom(corner) then 1.0 - my - height else my;
    ClampScales(y, 1.0 - height, h);
    assert (1.0 - my - height) * h == h - my * h - height * h;
    assert (1.0 - height) * h == h - height * h;
  }

  lemma Over28(h: real)
    requires h >= 46.0
    ensures 28.0 / h <= 1.0 && 28.0 / h * h == 28.0 && 18.0 / h * h == 18.0
  {
  }

  // ---------------------------------------------------------------- from the marker to the drawn signature

  function AsRect(b: Box): Rect {
    Rect(b.x, b.y, b.width, b.height)
  }

  /** The local point (lx, ly) of the placed content is drawn at `target`. */
  ghost predicate DrawnAt(p: Placement, lx: real, ly: real, target: Point) {
    p.ToPage(lx, ly) == target
  }

  /** For a signature or initials that the page has room for, the local point a fifth of the height above the
      field's lower left corner is the start of the marker's baseline in PDF space. */
  lemma SignatureRestsOnBaseline(page: Rect, rotation: real, a: FoundAnchor)
    requires page.width > 0.0 && page.height > 0.0 && Upright(a.kind)
    requires var view := ViewSize(page, rotation); OnPage(Unfitted(a, view.width, view.height))
    ensures var view := ViewSize(page, rotation);
            var placed := PlaceField(page, rotation, AsRect(FieldFromAnchor(a, view.width, view.height)));
            DrawnAt(placed, 0.0, SIGNATURE_OVERLAP * placed.contentHeight, ViewToPdf(page, rotation, a.box.x, a.box.baseline))
  {
    var view := ViewSize(page, rotation);
    SizePositive(a.kind, view.width, view.height);
    FitIsOnPage(Unfitted(a, view.width, view.height));
    UnfittedRests(a, view.width, view.height);
    RestsOn(page, rotation, FieldFromAnchor(a, view.width, view.height), a.box.x, a.box.baseline);
  }

  /** When the marker reads straight to the right from the PDF point `start`, that point is `start` itself. */
  lemma SignatureStartsAtMarker(view: Page, page: Rect, rotation: real, gs: seq<Glyph>, a: FoundAnchor, x: real, y: real, start: Point)
    requires page.width > 0.0 && page.height > 0.0 && Upright(a.kind)
    requires ViewSize(page, rotation) == Size(view.viewWidth, view.viewHeight)
    requires OnPage(Unfitted(a, view.viewWidth, view.viewHeight))
    requires gs != [] && AllPlaced(gs) && Measure(view, gs) == Some(a.box)
    requires Straight(Quads(gs), x, y) && 0.0 <= x <= view.viewWidth && 0.0 <= y <= view.viewHeight
    requires ViewToPdf(page, rotation, x / view.viewWidth, y / view.viewHeight) == start
    ensures var placed := PlaceField(page, rotation, AsRect(FieldFromAnchor(a, view.viewWidth, view.viewHeight)));
            DrawnAt(placed, 0.0, SIGNATURE_OVERLAP * placed.contentHeight, start)
  {
    SignatureRestsOnBaseline(page, rotation, a);
    StraightBox(view, gs, x, y);
  }

  /** A fifth of the box hangs below the baseline. */
  ghost predicate Rests(box: Box, x: real, baseline: real) {
    box.x == x && box.y + box.height - 0.2 * box.height == baseline
  }

  lemma UnfittedRests(a: FoundAnchor, viewWidth: real, viewHeight: real)
    requires viewWidth > 0.0 && viewHeight > 0.0 && Upright(a.kind)
    ensures Rests(Unfitted(a, viewWidth, viewHeight), a.box.x, a.box.baseline)
  {
  }

  lemma RestsOn(page: Rect, rotation: real, box: Box, x: real, baseline: real)
    requires page.width > 0.0 && page.height > 0.0 && Rests(box, x, baseline)
    ensures var placed := PlaceField(page, rotation, AsRect(box));
            DrawnAt(placed, 0.0, 0.2 * placed.contentHeight, ViewToPdf(page, rotation, x, baseline))
  {
    ShowsFifth(page, rotation, box, x, baseline);
    PlacementAt(page, rotation, AsRect(box), 0.0, 0.2 * PlaceField(page, rotation, AsRect(box)).contentHeight, x, baseline);
  }

  /** The local point (lx, ly) of a field is seen at (u, v). */
  ghost predicate SeenAt(view: Size, field: Rect, lx: real, ly: real, u: real, v: real)
    requires view.width > 0.0 && view.height > 0.0
  {
    u == field.x + lx / view.width && v == field.y + field.height - ly / view.height
  }

  lemma ShowsFifth(page: Rect, rotation: real, box: Box, x: real, baseline: real)
    requires page.width > 0.0 && page.height > 0.0 && Rests(box, x, baseline)
    ensures SeenAt(ViewSize(page, rotation), AsRect(box), 0.0, 0.2 * PlaceField(page, rotation, AsRect(box)).contentHeight, x, baseline)
  {
    var view := ViewSize(page, rotation);
    PlaceFieldIs(page, rotation, AsRect(box));
    FifthSeen(view, box, PlaceField(page, rotation, AsRect(box)).contentHeight, x, baseline);
  }

  lemma FifthSeen(view: Size, box: Box, contentHeight: real, x: real, baseline: real)
    requires view.width > 0.0 && view.height > 0.0 && Rests(box, x, baseline) && contentHeight == box.height * view.height
    ensures SeenAt(view, AsRect(box), 0.0, 0.2 * contentHeight, x, baseline)
  {
    Fifth(box.height, view.height);
    Zero(view.width);
  }

  lemma PlacementAt(page: Rect, rotation: real, field: Rect, lx: real, ly: real, u: real, v: real)
    requires page.width > 0.0 && page.height > 0.0 && SeenAt(ViewSize(page, rotation), field, lx, ly, u, v)
    ensures DrawnAt(PlaceField(page, rotation, field), lx, ly, ViewToPdf(page, rotation, u, v))
  {
    PlacementFollowsView(page, rotation, field, lx, ly);
  }

  lemma Zero(w: real)
    requires w > 0.0
    ensures 0.0 / w == 0.0
  {
  }

  lemma Fifth(h: real, w: real)
    requires w > 0.0
    ensures 0.2 * (h * w) / w == 0.2 * h
  {
  }
}
