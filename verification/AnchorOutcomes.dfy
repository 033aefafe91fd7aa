/** What a page scan finds and what it complains about, said of the page's text alone. */
module AnchorOutcomes {
  import opened Basics
  import opened EnvelopeFields
  import opened FieldGeometry
  import opened Anchors
  import opened AnchorTheorems

  // ---------------------------------------------------------------- characters

  /** What counts as a space: the white space and line terminators of ECMA-262 (sections 12.2 and 12.3). */
  lemma SpacesExactly(c: char)
    ensures Space(c) <==> c as int in {0x9, 0xA, 0xB, 0xC, 0xD, 0x20, 0xA0, 0x1680, 0x2000, 0x2001, 0x2002, 0x2003, 0x2004, 0x2005,
                                       0x2006, 0x2007, 0x2008, 0x2009, 0x200A, 0x2028, 0x2029, 0x202F, 0x205F, 0x3000, 0xFEFF}
  {
  }

  /** Capital letters become small ones, and so does the one other character whose small form is an ASCII letter. */
  lemma LowersExactly(c: char)
    ensures 'A' <= c <= 'Z' ==> 'a' <= Lower(c) <= 'z' && Lower(c) as int - 'a' as int == c as int - 'A' as int
    ensures c == '\U{212A}' ==> Lower(c) == 'k'
    ensures !('A' <= c <= 'Z') && c != '\U{212A}' ==> Lower(c) == c
  {
  }

  // ---------------------------------------------------------------- where a character and a marker are

  lemma Multiplied(x: real, y: real)
    requires y > 0.0
    ensures x / y * y == x
  {
  }

  /** A point `t` along the baseline of an item; `w` is the length of its direction. */
  ghost predicate Along(it: Item, w: real, t: real, x: real, y: real) {
    (x - it.e) * w == it.a * t && (y - it.f) * w == it.b * t
  }

  lemma AlongIs(it: Item, w: real, t: real)
    requires w > 0.0
    ensures Along(it, w, t, it.e + it.a / w * t, it.f + it.b / w * t)
  {
    Multiplied(it.a, w);
    Multiplied(it.b, w);
    assert it.a / w * t * w == it.a / w * w * t;
    assert it.b / w * t * w == it.b / w * w * t;
  }

  /** A character has a place exactly if its item has a direction, a size and a width. */
  lemma PlacedExactly(page: Page, it: Item, index: nat)
    ensures QuadOf(page, it, index).Some?
            <==> page.hypot(it.a, it.b) > 0.0 && page.hypot(it.c, it.d) > 0.0 && it.width >= 0.0 && it.str != ""
  {
  }

  lemma OffsetIs(it: Item, index: nat)
    requires |it.str| > 0
    ensures Offset(it, index) * |it.str| as real == it.width * index as real
  {
    Multiplied(it.width * index as real, |it.str| as real);
  }

  /** A point of the baseline and the point above it. */
  function At(it: Item, w: real, t: real): Point
    requires w > 0.0
  {
    Point(it.e + it.a / w * t, it.f + it.b / w * t)
  }

  function Above(it: Item, p: Point): Point {
    Point(p.x + it.c, p.y + it.d)
  }

  lemma EdgesAre(page: Page, it: Item, w: real, size: real, t0: real, t1: real)
    requires w > 0.0 && size > 0.0
    ensures var e := Edges(page, it, w, size, t0, t1); var p, q := At(it, w, t0), At(it, w, t1);
            && e.base0 == page.toView(p.x, p.y) && e.top0 == page.toView(Above(it, p).x, Above(it, p).y)
            && e.base1 == page.toView(q.x, q.y) && e.top1 == page.toView(Above(it, q).x, Above(it, q).y)
  {
    Multiplied(it.c, size);
    Multiplied(it.d, size);
    Tops(page, it, it.c / size * size, it.d / size * size, At(it, w, t0));
    Tops(page, it, it.c / size * size, it.d / size * size, At(it, w, t1));
  }

  lemma Tops(page: Page, it: Item, ux: real, uy: real, p: Point)
    requires ux == it.c && uy == it.d
    ensures page.toView(p.x + ux, p.y + uy) == page.toView(Above(it, p).x, Above(it, p).y)
  {
  }

  /** A character that is the index-th of n takes the index-th of n equal parts of its item's width: from a point `p` of
      the baseline, and the point above it by the item's height, to the next such points at `q`. */
  lemma CornersExactly(page: Page, it: Item, index: nat) returns (t0: real, t1: real, p: Point, q: Point)
    requires QuadOf(page, it, index).Some?
    ensures it.str != ""
    ensures t0 * |it.str| as real == it.width * index as real && t1 * |it.str| as real == it.width * (index + 1) as real
    ensures Along(it, page.hypot(it.a, it.b), t0, p.x, p.y) && Along(it, page.hypot(it.a, it.b), t1, q.x, q.y)
    ensures var e := QuadOf(page, it, index).value;
            && e.base0 == page.toView(p.x, p.y) && e.top0 == page.toView(Above(it, p).x, Above(it, p).y)
            && e.base1 == page.toView(q.x, q.y) && e.top1 == page.toView(Above(it, q).x, Above(it, q).y)
  {
    var w := page.hypot(it.a, it.b);
    t0, t1 := Offset(it, index), Offset(it, index + 1);
    OffsetIs(it, index);
    OffsetIs(it, index + 1);
    AlongIs(it, w, t0);
    AlongIs(it, w, t1);
    p, q := At(it, w, t0), At(it, w, t1);
    EdgesAre(page, it, w, page.hypot(it.c, it.d), t0, t1);
  }

  /** `q` is `p`, cut to the page. */
  ghost predicate CutTo(q: real, p: real) {
    && (0.0 <= p <= 1.0 ==> q == p) && (p < 0.0 ==> q == 0.0) && (p > 1.0 ==> q == 1.0)
  }

  /** The lists that are measured hold the four corners of each character and nothing else, and of the baselines
      their two ends, in order. */
  lemma {:induction false} CornersListed(qs: seq<Quad>)
    ensures forall x :: x in Xs(qs) <==> exists i :: 0 <= i < |qs| && XOf(qs[i], x)
    ensures forall y :: y in Ys(qs) <==> exists i :: 0 <= i < |qs| && YOf(qs[i], y)
    ensures forall i | 0 <= i < |qs| :: BaseYs(qs)[2 * i] == qs[i].base0.y && BaseYs(qs)[2 * i + 1] == qs[i].base1.y
  {
    if qs != [] {
      var front, last := qs[..|qs| - 1], qs[|qs| - 1];
      CornersListed(front);
      forall x ensures x in Xs(qs) <==> exists i :: 0 <= i < |qs| && XOf(qs[i], x) {
        OneQuadMore(front, last, x, x);
      }
      forall y ensures y in Ys(qs) <==> exists i :: 0 <= i < |qs| && YOf(qs[i], y) {
        OneQuadMore(front, last, y, y);
      }
    }
  }

  predicate XOf(q: Quad, x: real) {
    x == q.base0.x || x == q.top0.x || x == q.base1.x || x == q.top1.x
  }

  predicate YOf(q: Quad, y: real) {
    y == q.base0.y || y == q.top0.y || y == q.base1.y || y == q.top1.y
  }

  lemma OneQuadMore(front: seq<Quad>, last: Quad, x: real, y: real)
    ensures (exists i :: 0 <= i < |front + [last]| && XOf((front + [last])[i], x))
            <==> XOf(last, x) || exists i :: 0 <= i < |front| && XOf(front[i], x)
    ensures (exists i :: 0 <= i < |front + [last]| && YOf((front + [last])[i], y))
            <==> YOf(last, y) || exists i :: 0 <= i < |front| && YOf(front[i], y)
  {
    var qs := front + [last];
    assert qs[|front|] == last;
    if i :| 0 <= i < |front| && XOf(front[i], x) {
      assert XOf(qs[i], x);
    }
    if i :| 0 <= i < |front| && YOf(front[i], y) {
      assert YOf(qs[i], y);
    }
  }

  ghost predicate LeastOf(m: real, xs: seq<real>) {
    m in xs && forall x | x in xs :: m <= x
  }

  ghost predicate GreatestOf(m: real, xs: seq<real>) {
    m in xs && forall x | x in xs :: x <= m
  }

  /** The box reaches from the least to the greatest corner, and its baseline is the mean of those of its characters. */
  ghost predicate Bounds(box: AnchorBox, xs: seq<real>, ys: seq<real>, baseYs: seq<real>, w: real, h: real)
    requires w > 0.0 && h > 0.0 && |baseYs| > 0
  {
    && (exists m :: LeastOf(m, xs) && CutTo(box.x, m / w))
    && (exists m :: GreatestOf(m, xs) && CutTo(box.x + box.width, m / w))
    && (exists m :: LeastOf(m, ys) && CutTo(box.y, m / h))
    && (exists m :: GreatestOf(m, ys) && CutTo(box.y + box.height, m / h))
    && CutTo(box.baseline, Sum(baseYs) / |baseYs| as real / h)
  }

  lemma BoxBounds(xs: seq<real>, ys: seq<real>, baseYs: seq<real>, w: real, h: real)
    requires xs != [] && ys != [] && baseYs != [] && w > 0.0 && h > 0.0
    ensures Bounds(BoxOf(xs, ys, baseYs, w, h), xs, ys, baseYs, w, h)
  {
    assert LeastOf(Lowest(xs), xs) && GreatestOf(Highest(xs), xs) && LeastOf(Lowest(ys), ys) && GreatestOf(Highest(ys), ys);
  }

  /** The measured box of a marker whose characters can all be placed. */
  lemma MeasureBounds(page: Page, gs: seq<Glyph>)
    requires gs != [] && AllPlaced(gs)
    ensures var box := Measure(page, gs); var qs := Quads(gs);
            box.Some? && Bounds(box.value, Xs(qs), Ys(qs), BaseYs(qs), page.viewWidth, page.viewHeight)
  {
    var qs := Quads(gs);
    BoxBounds(Xs(qs), Ys(qs), BaseYs(qs), page.viewWidth, page.viewHeight);
  }

  // ---------------------------------------------------------------- which stretches of text are markers

  /** [[AS: in either case, at most 80 characters other than ], and ]]. */
  ghost predicate MarkerAt(t: string, i: nat, n: nat) {
    && 7 <= n <= 87 && i + n <= |t|
    && t[i] == '[' && t[i + 1] == '[' && (t[i + 2] == 'A' || t[i + 2] == 'a') && (t[i + 3] == 'S' || t[i + 3] == 's') && t[i + 4] == ':'
    && t[i + n - 2] == ']' && t[i + n - 1] == ']'
    && forall j | i + 5 <= j < i + n - 2 :: t[j] != ']'
  }

  lemma MatchExactly(t: string, n: nat)
    requires n > 0
    ensures MatchLength(t) == n <==> MarkerAt(t, 0, n)
  {
    if Opens(t) {
      var run := RunLength(t[5..]);
      assert forall j | 0 <= j < run :: t[5 + j] == t[5..][j];
      assert 5 + run < |t| ==> t[5 + run] == t[5..][run];
      if MarkerAt(t, 0, n) {
        assert t[n - 2] == t[5..][n - 7];
      }
    }
  }

  lemma MarkerFrom(t: string, from: nat, i: nat, n: nat)
    requires from + i <= |t|
    ensures MarkerAt(t[from..], i, n) <==> MarkerAt(t, from + i, n)
  {
    if MarkerAt(t[from..], i, n) {
      forall j | from + i + 5 <= j < from + i + n - 2 ensures t[j] != ']' {
        assert t[j] == t[from..][j - from];
      }
    }
  }

  ghost predicate AllMarkers(t: string, ms: seq<Match>) {
    forall i | 0 <= i < |ms| :: MarkerAt(t, ms[i].start, ms[i].length)
  }

  /** In order and apart from each other. */
  ghost predicate InOrder(ms: seq<Match>) {
    forall i, j | 0 <= i < j < |ms| :: ms[i].start + ms[i].length <= ms[j].start
  }

  ghost predicate Inside(ms: seq<Match>, i: nat) {
    exists k :: 0 <= k < |ms| && ms[k].start <= i < ms[k].start + ms[k].length
  }

  /** No marker is passed over: each one from here on starts inside a match. */
  ghost predicate NonePassed(t: string, from: nat, ms: seq<Match>) {
    forall i: nat, n: nat | from <= i && MarkerAt(t, i, n) :: Inside(ms, i)
  }

  ghost predicate NoneAt(t: string, i: nat) {
    forall n: nat :: !MarkerAt(t, i, n)
  }

  lemma MarkerHere(t: string, from: nat)
    requires from <= |t|
    ensures var n := MatchLength(t[from..]); if n == 0 then NoneAt(t, from) else MarkerAt(t, from, n)
  {
    var n := MatchLength(t[from..]);
    if n > 0 {
      MatchExactly(t[from..], n);
      MarkerFrom(t, from, 0, n);
    } else {
      forall m: nat ensures !MarkerAt(t, from, m) {
        if m > 0 {
          MatchExactly(t[from..], m);
          MarkerFrom(t, from, 0, m);
        }
      }
    }
  }

  lemma {:induction false} MatchesAreMarkers(t: string, from: nat)
    requires from <= |t|
    ensures AllMarkers(t, Matches(t, from))
    decreases |t| - from
  {
    if from < |t| {
      var n := MatchLength(t[from..]);
      MarkerHere(t, from);
      MatchesAreMarkers(t, if n == 0 then from + 1 else from + n);
    }
  }

  lemma {:induction false} MatchesAreInOrder(t: string, from: nat)
    requires from <= |t|
    ensures InOrder(Matches(t, from))
    decreases |t| - from
  {
    if from < |t| {
      var n := MatchLength(t[from..]);
      MatchesAreInOrder(t, if n == 0 then from + 1 else from + n);
    }
  }

  lemma NextPlace(t: string, from: nat, ms: seq<Match>)
    requires NonePassed(t, from + 1, ms) && NoneAt(t, from)
    ensures NonePassed(t, from, ms)
  {
    forall i: nat, m: nat | from <= i && MarkerAt(t, i, m) ensures Inside(ms, i) {
      assert i != from;
    }
  }

  lemma {:induction false} NoMarkerIsPassed(t: string, from: nat)
    requires from <= |t|
    ensures NonePassed(t, from, Matches(t, from))
    decreases |t| - from
  {
    if from == |t| {
      NothingAtEnd(t);
    } else {
      var n := MatchLength(t[from..]);
      MarkerHere(t, from);
      if n == 0 {
        NoMarkerIsPassed(t, from + 1);
        NextPlace(t, from, Matches(t, from + 1));
        assert Matches(t, from) == Matches(t, from + 1);
      } else {
        NoMarkerIsPassed(t, from + n);
        FirstMatch(t, from, n, Matches(t, from + n));
        assert Matches(t, from) == [Match(from, n)] + Matches(t, from + n);
      }
    }
  }

  lemma NothingAtEnd(t: string)
    ensures NonePassed(t, |t|, [])
  {
  }

  lemma FirstMatch(t: string, from: nat, n: nat, rest: seq<Match>)
    requires NonePassed(t, from + n, rest)
    ensures NonePassed(t, from, [Match(from, n)] + rest)
  {
    forall i: nat, m: nat | from <= i && MarkerAt(t, i, m) ensures Inside([Match(from, n)] + rest, i) {
      if from + n <= i {
        assert Inside(rest, i);
      }
      InsideMore(Match(from, n), rest, i);
    }
  }

  lemma InsideMore(m: Match, rest: seq<Match>, i: nat)
    ensures m.start <= i < m.start + m.length || Inside(rest, i) ==> Inside([m] + rest, i)
  {
    var ms := [m] + rest;
    assert ms[0] == m;
    if k :| 0 <= k < |rest| && rest[k].start <= i < rest[k].start + rest[k].length {
      assert ms[k + 1] == rest[k];
    }
  }

  /** The matches of a text are markers, in order and apart, and none is passed over. */
  lemma MatchesExactly(t: string)
    ensures AllMarkers(t, Matches(t, 0)) && InOrder(Matches(t, 0)) && NonePassed(t, 0, Matches(t, 0))
  {
    MatchesAreMarkers(t, 0);
    MatchesAreInOrder(t, 0);
    NoMarkerIsPassed(t, 0);
  }

  // ---------------------------------------------------------------- what a marker says

  function WordFor(kind: FieldType): string {
    match kind
    case SignatureField => "assinatura"
    case InitialsField => "rubrica"
    case NameField => "nome"
    case DateField => "data"
  }

  predicate RoleCharacter(c: char, first: bool) {
    'a' <= c <= 'z' || '0' <= c <= '9' || (!first && (c == '_' || c == '-'))
  }

  /** Between the brackets stand the word for the field, a colon, and a role of 1 to 40 characters. */
  ghost predicate Names(t: string, kind: FieldType, role: string) {
    && |t| >= 7 && LowerText(t[5..|t| - 2]) == WordFor(kind) + ":" + role
    && 1 <= |role| <= 40 && forall i | 0 <= i < |role| :: RoleCharacter(role[i], i == 0)
  }

  lemma RoleIsLegal(role: string)
    ensures LegalRole(role) <==> 1 <= |role| <= 40 && forall i | 0 <= i < |role| :: RoleCharacter(role[i], i == 0)
  {
    if LegalRole(role) {
      forall i | 0 <= i < |role| ensures RoleCharacter(role[i], i == 0) {
        assert role[i] in role;
      }
    }
  }

  lemma WordIsKind(word: string, kind: FieldType)
    ensures KindOf(word) == Some(kind) <==> word == WordFor(kind)
  {
  }

  lemma WordIsLetters(kind: FieldType, role: string)
    ensures Letters(WordFor(kind) + ":" + role) == |WordFor(kind)|
  {
    var word, s := WordFor(kind), WordFor(kind) + ":" + role;
    assert s[|word|] == ':';
    forall i | 0 <= i < |word| ensures Letter(s[i]) {
      assert s[i] == word[i];
    }
  }

  lemma NamedIsParsed(t: string, kind: FieldType, role: string)
    requires Names(t, kind, role)
    ensures InnerOf(t) == Some((kind, role))
  {
    var s := LowerText(t[5..|t| - 2]);
    var n := Letters(s);
    WordIsLetters(kind, role);
    assert s[..n] == WordFor(kind) && s[n + 1..] == role;
    RoleIsLegal(role);
    WordIsKind(s[..n], kind);
  }

  lemma NamesExactly(t: string, kind: FieldType, role: string)
    ensures InnerOf(t) == Some((kind, role)) <==> Names(t, kind, role)
  {
    if Names(t, kind, role) {
      NamedIsParsed(t, kind, role);
    }
    if InnerOf(t) == Some((kind, role)) {
      var s := LowerText(t[5..|t| - 2]);
      var n := Letters(s);
      assert s == s[..n] + ":" + s[n + 1..];
      RoleIsLegal(role);
      WordIsKind(s[..n], kind);
    }
  }

  /** A match is an anchor exactly if its text names a field and a role and all of its characters can be placed. */
  ghost predicate WellMarked(gs: seq<Glyph>) {
    gs != [] && AllPlaced(gs) && exists kind, role :: Names(Text(gs), kind, role)
  }

  lemma RecognisedExactly(page: Page, gs: seq<Glyph>)
    ensures var r := Recognised(page, gs);
            && (r.Success? <==> WellMarked(gs))
            && (r.Success? ==> && r.value.text == Text(gs) && r.value.page == page.number
                               && Names(Text(gs), r.value.kind, r.value.role) && Measure(page, gs) == Some(r.value.box))
            && (r.Failure? ==> r.error == InvalidAnchor(Text(gs), page.number))
  {
    var inner := InnerOf(Text(gs));
    if inner.Some? {
      NamesExactly(Text(gs), inner.value.0, inner.value.1);
    }
    if WellMarked(gs) {
      var kind, role :| Names(Text(gs), kind, role);
      NamesExactly(Text(gs), kind, role);
      MeasuresPlaced(page, gs);
    }
  }

  // ---------------------------------------------------------------- the whole page

  function Part(gs: seq<Glyph>, m: Match): seq<Glyph>
    requires m.start + m.length <= |gs|
  {
    gs[m.start..m.start + m.length]
  }

  /** How many of the matches are anchors. */
  ghost function WellMarkedIn(gs: seq<Glyph>, ms: seq<Match>): nat
    requires Within(ms, |gs|)
  {
    if ms == [] then 0
    else WellMarkedIn(gs, ms[..|ms| - 1]) + if WellMarked(Part(gs, ms[|ms| - 1])) then 1 else 0
  }

  ghost predicate EachWellMarked(gs: seq<Glyph>, ms: seq<Match>)
    requires Within(ms, |gs|)
  {
    forall k | 0 <= k < |ms| :: WellMarked(Part(gs, ms[k]))
  }

  lemma OneMoreWellMarked(gs: seq<Glyph>, front: seq<Match>, last: Match)
    requires Within(front + [last], |gs|)
    ensures Within(front, |gs|) && last.start + last.length <= |gs|
    ensures EachWellMarked(gs, front + [last]) <==> EachWellMarked(gs, front) && WellMarked(Part(gs, last))
  {
    var ms := front + [last];
    assert ms[|front|] == last;
    forall k | 0 <= k < |front| ensures ms[k] == front[k] {
    }
    if EachWellMarked(gs, ms) {
      forall k | 0 <= k < |front| ensures WellMarked(Part(gs, front[k])) {
        assert WellMarked(Part(gs, ms[k]));
      }
    }
  }

  lemma {:induction false} AllWellMarked(gs: seq<Glyph>, ms: seq<Match>)
    requires Within(ms, |gs|)
    ensures WellMarkedIn(gs, ms) <= |ms|
    ensures WellMarkedIn(gs, ms) == |ms| <==> EachWellMarked(gs, ms)
  {
    if ms != [] {
      var front, last := ms[..|ms| - 1], ms[|ms| - 1];
      AllWellMarked(gs, front);
      assert front + [last] == ms;
      OneMoreWellMarked(gs, front, last);
    }
  }

  lemma {:induction false} EveryMatchCounts(page: Page, gs: seq<Glyph>, ms: seq<Match>)
    requires Within(ms, |gs|)
    ensures var scan := Collected(RecogniserOf(page), gs, ms);
            |scan.anchors| == WellMarkedIn(gs, ms) && |scan.anchors| + |scan.invalid| == |ms|
  {
    if ms != [] {
      EveryMatchCounts(page, gs, ms[..|ms| - 1]);
      RecognisedExactly(page, Part(gs, ms[|ms| - 1]));
    }
  }

  /** Every match is in the scan: as an anchor with the field and the role that it names, or as invalid with its text. */
  ghost predicate Reported(page: Page, scan: AnchorScan, part: seq<Glyph>) {
    if WellMarked(part) then
      exists a :: a in scan.anchors && a.text == Text(part) && a.page == page.number && Names(Text(part), a.kind, a.role)
                  && Measure(page, part) == Some(a.box)
    else InvalidAnchor(Text(part), page.number) in scan.invalid
  }

  lemma ReportedStays(page: Page, scan: AnchorScan, r: Result<FoundAnchor, InvalidAnchor>, part: seq<Glyph>)
    requires Reported(page, scan, part)
    ensures Reported(page, After(scan, r), part)
  {
    if a :| a in scan.anchors && a.text == Text(part) && a.page == page.number && Names(Text(part), a.kind, a.role)
            && Measure(page, part) == Some(a.box) {
      assert a in After(scan, r).anchors;
    }
  }

  lemma ReportedNow(page: Page, scan: AnchorScan, part: seq<Glyph>)
    ensures Reported(page, After(scan, Recognised(page, part)), part)
  {
    RecognisedExactly(page, part);
    var r := Recognised(page, part);
    if r.Success? {
      assert r.value in After(scan, r).anchors;
    }
  }

  lemma {:induction false} EveryMatchIsReported(page: Page, gs: seq<Glyph>, ms: seq<Match>, k: nat)
    requires Within(ms, |gs|) && k < |ms|
    ensures Reported(page, Collected(RecogniserOf(page), gs, ms), Part(gs, ms[k]))
  {
    var front, last := ms[..|ms| - 1], ms[|ms| - 1];
    var scan := Collected(RecogniserOf(page), gs, front);
    if k < |front| {
      EveryMatchIsReported(page, gs, front, k);
      ReportedStays(page, scan, Recognised(page, Part(gs, last)), Part(gs, ms[k]));
    } else {
      ReportedNow(page, scan, Part(gs, last));
    }
  }

  ghost predicate EachReported(page: Page, scan: AnchorScan, gs: seq<Glyph>, ms: seq<Match>)
    requires Within(ms, |gs|)
  {
    forall k | 0 <= k < |ms| :: Reported(page, scan, Part(gs, ms[k]))
  }

  lemma EveryMatchIsThere(page: Page, gs: seq<Glyph>, ms: seq<Match>)
    requires Within(ms, |gs|)
    ensures EachReported(page, Collected(RecogniserOf(page), gs, ms), gs, ms)
  {
    forall k | 0 <= k < |ms| ensures Reported(page, Collected(RecogniserOf(page), gs, ms), Part(gs, ms[k])) {
      EveryMatchIsReported(page, gs, ms, k);
    }
  }

  /** Every marker on the page is either an anchor or reported as invalid, and a page has no invalid marker exactly if
      each of its markers names a field and a role and can be placed. */
  lemma PageIsAccounted(page: Page) returns (ms: seq<Match>)
    ensures var gs := PageGlyphs(page); var scan := Scan(page, gs);
            && AllMarkers(Text(gs), ms) && InOrder(ms) && NonePassed(Text(gs), 0, ms) && Within(ms, |gs|)
            && |scan.anchors| == WellMarkedIn(gs, ms) && |scan.anchors| + |scan.invalid| == |ms|
            && EachReported(page, scan, gs, ms)
            && (scan.invalid == [] <==> EachWellMarked(gs, ms))
  {
    var gs := PageGlyphs(page);
    ms := Matches(Text(gs), 0);
    MatchesExactly(Text(gs));
    EveryMatchCounts(page, gs, ms);
    AllWellMarked(gs, ms);
    EveryMatchIsThere(page, gs, ms);
  }
}
