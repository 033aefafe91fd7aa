/** What anchor scanning promises: printed markers are found again, and cutting the text differently changes nothing. */
module AnchorTheorems {
  import opened Basics
  import opened EnvelopeFields
  import opened FieldGeometry
  import opened Anchors

  // ---------------------------------------------------------------- printed markers

  datatype Mark = Mark(name: string, role: string)

  /** The marker text that the web application shows for copying. */
  function Marker(m: Mark): string {
    "[[AS:" + m.name + ":" + m.role + "]]"
  }

  /** Markers with text in between: one gap before each and one at the end. */
  function Printed(marks: seq<Mark>, gaps: seq<string>): string
    requires |gaps| == |marks| + 1
    decreases |marks|
  {
    if marks == [] then gaps[0] else gaps[0] + (Marker(marks[0]) + Printed(marks[1..], gaps[1..]))
  }

  predicate BracketFree(s: string) {
    forall i | 0 <= i < |s| :: s[i] != '[' && s[i] != ']'
  }

  predicate GoodMark(m: Mark) {
    KindOf(m.name).Some? && LegalRole(m.role)
  }

  function Joined(items: seq<Item>): string {
    if items == [] then "" else Joined(items[..|items| - 1]) + items[|items| - 1].str
  }

  /** Every item that shows something has a direction, a size and a width. */
  ghost predicate Proper(page: Page) {
    forall i | 0 <= i < |page.items| ::
      var it := page.items[i]; page.hypot(it.a, it.b) > 0.0 && page.hypot(it.c, it.d) > 0.0 && it.width >= 0.0
  }

  // ---------------------------------------------------------------- the compact text

  lemma {:induction false} StripJoins(s: string, t: string)
    ensures Strip(s + t) == Strip(s) + Strip(t)
    decreases |t|
  {
    if t == "" {
      assert s + t == s;
    } else {
      var front := t[..|t| - 1];
      assert (s + t)[..|s + t| - 1] == s + front;
      StripJoins(s, front);
    }
  }

  lemma {:induction false} ItemText(place: Placing, it: Item, n: nat)
    requires n <= |it.str|
    ensures Text(ItemGlyphs(place, it, n)) == Strip(it.str[..n])
  {
    if n > 0 {
      ItemText(place, it, n - 1);
      assert it.str[..n][..n - 1] == it.str[..n - 1];
    }
  }

  lemma TextJoins(a: seq<Glyph>, b: seq<Glyph>)
    ensures Text(a + b) == Text(a) + Text(b)
  {
  }

  lemma {:induction false} CompactText(place: Placing, items: seq<Item>)
    ensures Text(Glyphs(place, items)) == Strip(Joined(items))
  {
    if items != [] {
      var it := items[|items| - 1];
      CompactText(place, items[..|items| - 1]);
      ItemText(place, it, |it.str|);
      assert it.str[..|it.str|] == it.str;
      StripJoins(Joined(items[..|items| - 1]), it.str);
      TextJoins(Glyphs(place, items[..|items| - 1]), ItemGlyphs(place, it, |it.str|));
    }
  }

  ghost predicate Places(place: Placing, it: Item) {
    forall i: nat | i < |it.str| :: place(it, i).Some?
  }

  lemma {:induction false} ItemPlaced(place: Placing, it: Item, n: nat)
    requires n <= |it.str| && Places(place, it)
    ensures AllPlaced(ItemGlyphs(place, it, n))
  {
    if n > 0 {
      ItemPlaced(place, it, n - 1);
    }
  }

  lemma {:induction false} GlyphsPlaced(place: Placing, items: seq<Item>)
    requires forall i | 0 <= i < |items| :: Places(place, items[i])
    ensures AllPlaced(Glyphs(place, items))
  {
    if items != [] {
      GlyphsPlaced(place, items[..|items| - 1]);
      ItemPlaced(place, items[|items| - 1], |items[|items| - 1].str|);
    }
  }

  lemma ProperPlaces(page: Page)
    requires Proper(page)
    ensures forall i | 0 <= i < |page.items| :: Places(PlacingOf(page), page.items[i])
  {
  }

  // ---------------------------------------------------------------- stripping and lowering printed text

  lemma {:induction false} StripKeeps(s: string)
    requires forall c | c in s :: !Space(c)
    ensures Strip(s) == s
  {
    if s != "" {
      var front := s[..|s| - 1];
      assert s[|s| - 1] in s && forall c | c in front :: c in s;
      StripKeeps(front);
      assert s == front + [s[|s| - 1]];
    }
  }

  lemma {:induction false} StripBracketFree(s: string)
    requires BracketFree(s)
    ensures BracketFree(Strip(s))
  {
    if s != "" {
      StripBracketFree(s[..|s| - 1]);
    }
  }

  function Stripped(gaps: seq<string>): (r: seq<string>)
    ensures |r| == |gaps|
  {
    seq(|gaps|, i requires 0 <= i < |gaps| => Strip(gaps[i]))
  }

  lemma MarkerHasNoSpace(m: Mark)
    requires GoodMark(m)
    ensures Strip(Marker(m)) == Marker(m)
  {
    forall c | c in Marker(m) ensures !Space(c) {
      if c in m.role {
      } else if c in m.name {
      } else {
        assert c in "[[AS:" || c in ":" || c in "]]";
      }
    }
    StripKeeps(Marker(m));
  }

  lemma {:induction false} StripPrinted(marks: seq<Mark>, gaps: seq<string>)
    requires |gaps| == |marks| + 1 && forall m | m in marks :: GoodMark(m)
    ensures Strip(Printed(marks, gaps)) == Printed(marks, Stripped(gaps))
    decreases |marks|
  {
    if marks != [] {
      assert marks[0] in marks;
      StripPrinted(marks[1..], gaps[1..]);
      assert Stripped(gaps)[1..] == Stripped(gaps[1..]);
      MarkerHasNoSpace(marks[0]);
      StripJoins(Marker(marks[0]), Printed(marks[1..], gaps[1..]));
      StripJoins(gaps[0], Marker(marks[0]) + Printed(marks[1..], gaps[1..]));
    }
  }

  // ---------------------------------------------------------------- the scan finds them

  ghost predicate Finds(scan: AnchorScan, marks: seq<Mark>, page: int) {
    && scan.invalid == [] && |scan.anchors| == |marks|
    && forall i | 0 <= i < |marks| ::
         Some(scan.anchors[i].kind) == KindOf(marks[i].name) && scan.anchors[i].role == marks[i].role && scan.anchors[i].page == page
  }

  /** The same text but for the case of its letters. */
  ghost predicate SameLetters(s: string, t: string) {
    |s| == |t| && forall i | 0 <= i < |s| :: Lower(s[i]) == Lower(t[i])
  }

  lemma LowerKeepsMarks(c: char, d: char)
    requires Lower(c) == Lower(d)
    ensures c == '[' <==> d == '['
    ensures c == ']' <==> d == ']'
    ensures c == ':' <==> d == ':'
    ensures d == 'A' ==> c in "aA"
    ensures d == 'S' ==> c in "sS"
    ensures LetterOrDigit(d) || d == '_' || d == '-' || d == ':' ==> Lower(c) == d
  {
  }

  lemma InnerParses(m: Mark)
    requires GoodMark(m)
    ensures var inner := m.name + ":" + m.role;
            && (forall i | 0 <= i < |inner| :: LetterOrDigit(inner[i]) || inner[i] == '_' || inner[i] == '-' || inner[i] == ':')
            && 0 < |inner| <= 51 && ParseInner(inner) == Some((m.name, m.role))
  {
    var inner := m.name + ":" + m.role;
    NameIsLetters(m.name);
    assert inner[|m.name|] == ':';
    assert Letters(inner) == |m.name|;
    assert inner[..|m.name|] == m.name && inner[|m.name| + 1..] == m.role;
    forall i | 0 <= i < |inner| ensures LetterOrDigit(inner[i]) || inner[i] == '_' || inner[i] == '-' || inner[i] == ':' {
      if i > |m.name| {
        assert inner[i] == m.role[i - |m.name| - 1];
        assert inner[i] in m.role;
      }
    }
  }

  lemma NameIsLetters(name: string)
    requires KindOf(name).Some?
    ensures 0 < |name| <= 10 && forall i | 0 <= i < |name| :: Letter(name[i])
  {
  }

  /** A marker in any case is matched as a whole. */
  lemma MarkerMatches(t: string, m: Mark)
    requires GoodMark(m) && |t| >= |Marker(m)| && SameLetters(t[..|Marker(m)|], Marker(m))
    ensures MatchLength(t) == |Marker(m)|
  {
    var p := Marker(m);
    var inner := m.name + ":" + m.role;
    InnerParses(m);
    assert p == "[[AS:" + inner + "]]";
    forall i | 0 <= i < |p| ensures Lower(t[i]) == Lower(p[i]) {
      assert t[..|p|][i] == t[i];
    }
    LowerKeepsMarks(t[0], p[0]);
    LowerKeepsMarks(t[1], p[1]);
    LowerKeepsMarks(t[2], p[2]);
    LowerKeepsMarks(t[3], p[3]);
    LowerKeepsMarks(t[4], p[4]);
    var n := |inner|;
    LowerKeepsMarks(t[5 + n], p[5 + n]);
    LowerKeepsMarks(t[6 + n], p[6 + n]);
    forall i | 0 <= i < n ensures t[5..][i] != ']' {
      assert p[5 + i] == inner[i];
      LowerKeepsMarks(t[5 + i], p[5 + i]);
    }
    assert t[5..][n] == t[5 + n];
  }

  lemma LowersBack(c: char, d: char)
    requires Lower(c) == Lower(d) && (LetterOrDigit(d) || d == '_' || d == '-' || d == ':')
    ensures Lower(c) == d
  {
  }

  lemma LowersInner(t: string, inner: string)
    requires SameLetters(t, "[[AS:" + inner + "]]")
    requires forall i | 0 <= i < |inner| :: LetterOrDigit(inner[i]) || inner[i] == '_' || inner[i] == '-' || inner[i] == ':'
    ensures |t| == |inner| + 7 && LowerText(t[5..|t| - 2]) == inner
  {
    var p := "[[AS:" + inner + "]]";
    forall i | 0 <= i < |inner| ensures Lower(t[5 + i]) == inner[i] {
      assert p[5 + i] == inner[i];
      LowersBack(t[5 + i], p[5 + i]);
    }
  }

  lemma MarkerNames(t: string, m: Mark)
    requires GoodMark(m) && SameLetters(t, Marker(m))
    ensures |t| >= 7 && InnerOf(t) == Some((KindOf(m.name).value, m.role))
  {
    var inner := m.name + ":" + m.role;
    InnerParses(m);
    assert Marker(m) == "[[AS:" + inner + "]]";
    LowersInner(t, inner);
  }

  lemma MeasuresPlaced(page: Page, gs: seq<Glyph>)
    requires gs != [] && AllPlaced(gs)
    ensures Measure(page, gs).Some?
  {
  }

  lemma MarkerRecognised(page: Page, gs: seq<Glyph>, m: Mark)
    requires GoodMark(m) && AllPlaced(gs) && SameLetters(Text(gs), Marker(m))
    ensures FindsOne(Recognised(page, gs), m, page.number)
  {
    MarkerNames(Text(gs), m);
    MeasuresPlaced(page, gs);
  }

  lemma NoMarkerAtGap(t: string, p: string)
    requires SameLetters(t, p) && p != "" && p[0] != '['
    ensures MatchLength(t) == 0
  {
    LowerKeepsMarks(t[0], p[0]);
  }

  lemma SameLettersFrom(s: string, t: string, n: nat)
    requires SameLetters(s, t) && n <= |s|
    ensures SameLetters(s[n..], t[n..]) && SameLetters(s[..n], t[..n])
  {
  }

  ghost predicate GoodText(marks: seq<Mark>, gaps: seq<string>) {
    |gaps| == |marks| + 1 && (forall i | 0 <= i < |marks| :: GoodMark(marks[i])) && (forall i | 0 <= i < |gaps| :: BracketFree(gaps[i]))
  }

  /** The k-th match covers the k-th marker. */
  ghost predicate Covers(t: string, ms: seq<Match>, marks: seq<Mark>) {
    && |ms| == |marks| && Within(ms, |t|)
    && forall k | 0 <= k < |ms| :: SameLetters(t[ms[k].start..ms[k].start + ms[k].length], Marker(marks[k]))
  }

  lemma {:induction false} MatchesCover(t: string, from: nat, marks: seq<Mark>, gaps: seq<string>)
    requires from <= |t| && GoodText(marks, gaps) && SameLetters(t[from..], Printed(marks, gaps))
    ensures Covers(t, Matches(t, from), marks)
    decreases |t| - from, 1
  {
    var p := Printed(marks, gaps);
    if gaps[0] != "" {
      var rest := gaps[0 := gaps[0][1..]];
      assert Printed(marks, rest) == p[1..];
      NoMarkerAtGap(t[from..], p);
      SameLettersFrom(t[from..], p, 1);
      assert t[from..][1..] == t[from + 1..];
      MatchesCover(t, from + 1, marks, rest);
    } else if marks != [] {
      CoversNext(t, from, marks, gaps);
    }
  }

  lemma SliceOfSuffix(t: string, from: nat, n: nat)
    requires from + n <= |t|
    ensures t[from..][n..] == t[from + n..] && t[from..][..n] == t[from..from + n]
  {
  }

  lemma SplitsNext(t: string, from: nat, marks: seq<Mark>, gaps: seq<string>)
    requires from <= |t| && |gaps| == |marks| + 1 && gaps[0] == "" && marks != [] && SameLetters(t[from..], Printed(marks, gaps))
    ensures var n := |Marker(marks[0])|;
            && 7 <= n <= |t| - from && SameLetters(t[from..from + n], Marker(marks[0]))
            && SameLetters(t[from + n..], Printed(marks[1..], gaps[1..]))
  {
    var m := Marker(marks[0]);
    var p := Printed(marks, gaps);
    assert p == m + Printed(marks[1..], gaps[1..]);
    assert p[..|m|] == m && p[|m|..] == Printed(marks[1..], gaps[1..]);
    SameLettersFrom(t[from..], p, |m|);
    SliceOfSuffix(t, from, |m|);
  }

  lemma CoversNext(t: string, from: nat, marks: seq<Mark>, gaps: seq<string>)
    requires from <= |t| && GoodText(marks, gaps) && SameLetters(t[from..], Printed(marks, gaps))
    requires gaps[0] == "" && marks != []
    ensures Covers(t, Matches(t, from), marks)
    decreases |t| - from, 0
  {
    var n := |Marker(marks[0])|;
    SplitsNext(t, from, marks, gaps);
    MatchesCover(t, from + n, marks[1..], gaps[1..]);
    NextMatch(t, from, marks[0]);
    CoversMore(t, Match(from, n), Matches(t, from + n), marks);
  }

  lemma NextMatch(t: string, from: nat, m: Mark)
    requires GoodMark(m) && from + |Marker(m)| <= |t| && SameLetters(t[from..from + |Marker(m)|], Marker(m))
    ensures Matches(t, from) == [Match(from, |Marker(m)|)] + Matches(t, from + |Marker(m)|)
  {
    SliceOfSuffix(t, from, |Marker(m)|);
    MarkerMatches(t[from..], m);
  }

  lemma CoversMore(t: string, m: Match, ms: seq<Match>, marks: seq<Mark>)
    requires marks != [] && m.length >= 7 && m.start + m.length <= |t| && Covers(t, ms, marks[1..])
    requires SameLetters(t[m.start..m.start + m.length], Marker(marks[0]))
    ensures Covers(t, [m] + ms, marks)
  {
    var all := [m] + ms;
    forall k | 0 <= k < |all| ensures SameLetters(t[all[k].start..all[k].start + all[k].length], Marker(marks[k])) {
      if k > 0 {
        assert all[k] == ms[k - 1] && marks[1..][k - 1] == marks[k];
      }
    }
  }

  ghost predicate FindsOne(r: Result<FoundAnchor, InvalidAnchor>, m: Mark, page: int) {
    r.Success? && Some(r.value.kind) == KindOf(m.name) && r.value.role == m.role && r.value.page == page
  }

  ghost predicate FindsEach(recognise: Recogniser, gs: seq<Glyph>, ms: seq<Match>, marks: seq<Mark>, page: int) {
    |ms| == |marks| && Within(ms, |gs|)
    && forall k | 0 <= k < |ms| :: FindsOne(recognise(gs[ms[k].start..ms[k].start + ms[k].length]), marks[k], page)
  }

  lemma {:induction false} CollectedFinds(recognise: Recogniser, gs: seq<Glyph>, ms: seq<Match>, marks: seq<Mark>, page: int)
    requires FindsEach(recognise, gs, ms, marks, page)
    ensures Finds(Collected(recognise, gs, ms), marks, page)
    decreases |ms|
  {
    if ms != [] {
      var n := |ms| - 1;
      assert FindsEach(recognise, gs, ms[..n], marks[..n], page);
      CollectedFinds(recognise, gs, ms[..n], marks[..n], page);
      assert FindsOne(recognise(gs[ms[n].start..ms[n].start + ms[n].length]), marks[n], page);
    }
  }

  lemma CoveredAreFound(page: Page, gs: seq<Glyph>, ms: seq<Match>, marks: seq<Mark>)
    requires AllPlaced(gs) && Covers(Text(gs), ms, marks) && forall i | 0 <= i < |marks| :: GoodMark(marks[i])
    ensures FindsEach(RecogniserOf(page), gs, ms, marks, page.number)
  {
    forall k | 0 <= k < |ms|
      ensures FindsOne(Recognised(page, gs[ms[k].start..ms[k].start + ms[k].length]), marks[k], page.number)
    {
      var slice := gs[ms[k].start..ms[k].start + ms[k].length];
      assert Text(slice) == Text(gs)[ms[k].start..ms[k].start + ms[k].length];
      MarkerRecognised(page, slice, marks[k]);
    }
  }

  /** Markers over known types and legal roles, printed between bracket-free texts, are found in order with nothing
      invalid, in whatever case, with whatever spaces in between and however the text is cut into items. */
  lemma PrintedMarkersAreFound(page: Page, marks: seq<Mark>, gaps: seq<string>)
    requires Proper(page) && GoodText(marks, gaps)
    requires LowerText(Strip(Joined(page.items))) == LowerText(Strip(Printed(marks, gaps)))
    ensures Finds(Scan(page, PageGlyphs(page)), marks, page.number)
  {
    var gs := PageGlyphs(page);
    CompactText(PlacingOf(page), page.items);
    ProperPlaces(page);
    GlyphsPlaced(PlacingOf(page), page.items);
    StripPrinted(marks, gaps);
    forall i | 0 <= i < |gaps| ensures BracketFree(Stripped(gaps)[i]) {
      StripBracketFree(gaps[i]);
    }
    SameLowered(Text(gs), Printed(marks, Stripped(gaps)));
    assert Text(gs)[0..] == Text(gs);
    MatchesCover(Text(gs), 0, marks, Stripped(gaps));
    CoveredAreFound(page, gs, Matches(Text(gs), 0), marks);
    CollectedFinds(RecogniserOf(page), gs, Matches(Text(gs), 0), marks, page.number);
  }

  lemma SameLowered(s: string, t: string)
    requires LowerText(s) == LowerText(t)
    ensures SameLetters(s, t)
  {
    forall i | 0 <= i < |s| ensures Lower(s[i]) == Lower(t[i]) {
      assert LowerText(s)[i] == LowerText(t)[i];
    }
  }

  // ---------------------------------------------------------------- cutting an item changes nothing

  /** The item cut before its k-th character: widths in proportion, the second part starting where the first ends. */
  function Cut(page: Page, it: Item, k: nat): seq<Item>
    requires 0 < k < |it.str| && page.hypot(it.a, it.b) > 0.0
  {
    var n := |it.str| as real;
    var w := it.width * k as real / n;
    var dirLen := page.hypot(it.a, it.b);
    [ it.(str := it.str[..k], width := w),
      it.(str := it.str[k..], width := it.width * (|it.str| - k) as real / n, e := it.e + it.a / dirLen * w, f := it.f + it.b / dirLen * w) ]
  }

  lemma Cancel(w: real, k: real, n: real, i: real)
    requires k > 0.0 && n > 0.0
    ensures w * k / n * i / k == w * i / n
  {
    var x := w * k / n * i / k;
    assert x * k == w * k / n * i;
    assert x * n == w * i by {
      assert (x * n) * k == (w * i) * k;
    }
  }

  lemma AddFractions(w: real, k: real, n: real, i: real)
    requires n > 0.0
    ensures w * k / n + w * i / n == w * (k + i) / n
  {
  }

  lemma Along(e: real, u: real, s: real, t: real)
    ensures e + u * (s + t) == (e + u * s) + u * t
  {
  }

  ghost predicate SameEdge(p: Item, q: Item, dirLen: real, t: real, t': real)
    requires dirLen > 0.0
  {
    p.e + p.a / dirLen * t == q.e + q.a / dirLen * t' && p.f + p.b / dirLen * t == q.f + q.b / dirLen * t'
  }

  lemma EdgesSame(page: Page, p: Item, q: Item, dirLen: real, size: real, t0: real, t1: real, t0': real, t1': real)
    requires dirLen > 0.0 && size > 0.0 && p.a == q.a && p.b == q.b && p.c == q.c && p.d == q.d
    requires SameEdge(p, q, dirLen, t0, t0') && SameEdge(p, q, dirLen, t1, t1')
    ensures Edges(page, p, dirLen, size, t0, t1) == Edges(page, q, dirLen, size, t0', t1')
  {
  }

  lemma FirstPartSame(page: Page, it: Item, k: nat, i: nat)
    requires 0 < k < |it.str| && i < k && page.hypot(it.a, it.b) > 0.0 && page.hypot(it.c, it.d) > 0.0 && it.width >= 0.0
    ensures QuadOf(page, Cut(page, it, k)[0], i) == QuadOf(page, it, i)
  {
    var part := Cut(page, it, k)[0];
    FirstOffset(page, it, k, i);
    FirstOffset(page, it, k, i + 1);
    NonNegative(it.width, k as real, |it.str| as real);
    EdgesSame(page, part, it, page.hypot(it.a, it.b), page.hypot(it.c, it.d),
              Offset(part, i), Offset(part, i + 1), Offset(it, i), Offset(it, i + 1));
  }

  lemma FirstOffset(page: Page, it: Item, k: nat, i: nat)
    requires 0 < k < |it.str| && page.hypot(it.a, it.b) > 0.0
    ensures Offset(Cut(page, it, k)[0], i) == Offset(it, i)
  {
    Cancel(it.width, k as real, |it.str| as real, i as real);
  }

  lemma NonNegative(w: real, k: real, n: real)
    requires w >= 0.0 && k >= 0.0 && n > 0.0
    ensures w * k / n >= 0.0
  {
  }

  lemma SecondPartSame(page: Page, it: Item, k: nat, i: nat)
    requires 0 < k < |it.str| && i < |it.str| - k && page.hypot(it.a, it.b) > 0.0 && page.hypot(it.c, it.d) > 0.0 && it.width >= 0.0
    ensures QuadOf(page, Cut(page, it, k)[1], i) == QuadOf(page, it, k + i)
  {
    var part := Cut(page, it, k)[1];
    NonNegative(it.width, (|it.str| - k) as real, |it.str| as real);
    EdgeSame(page, it, k, i);
    EdgeSame(page, it, k, i + 1);
    EdgesSame(page, part, it, page.hypot(it.a, it.b), page.hypot(it.c, it.d),
              Offset(part, i), Offset(part, i + 1), Offset(it, k + i), Offset(it, k + i + 1));
  }

  /** The two ways to reach the boundary before the i-th character of the second part. */
  lemma EdgeSame(page: Page, it: Item, k: nat, i: nat)
    requires 0 < k < |it.str| && i <= |it.str| - k && page.hypot(it.a, it.b) > 0.0
    ensures var part := Cut(page, it, k)[1];
            SameEdge(part, it, page.hypot(it.a, it.b), Offset(part, i), Offset(it, k + i))
  {
    var n, rest := |it.str| as real, (|it.str| - k) as real;
    var dirLen := page.hypot(it.a, it.b);
    var s, t := it.width * k as real / n, it.width * i as real / n;
    Cancel(it.width, rest, n, i as real);
    AddFractions(it.width, k as real, n, i as real);
    Along(it.e, it.a / dirLen, s, t);
    Along(it.f, it.b / dirLen, s, t);
  }

  lemma PartsSame(page: Page, it: Item, k: nat)
    requires 0 < k < |it.str| && page.hypot(it.a, it.b) > 0.0 && page.hypot(it.c, it.d) > 0.0 && it.width >= 0.0
    ensures var parts := Cut(page, it, k); var place := PlacingOf(page);
            && (forall i: nat | i < k :: place(parts[0], i) == place(it, i))
            && (forall i: nat | i < |it.str| - k :: place(parts[1], i) == place(it, k + i))
  {
    forall i: nat | i < k ensures QuadOf(page, Cut(page, it, k)[0], i) == QuadOf(page, it, i) {
      FirstPartSame(page, it, k, i);
    }
    forall i: nat | i < |it.str| - k ensures QuadOf(page, Cut(page, it, k)[1], i) == QuadOf(page, it, k + i) {
      SecondPartSame(page, it, k, i);
    }
  }

  /** `part` is the stretch of `it` from its k-th character on, with the same places. */
  ghost predicate PartOf(place: Placing, it: Item, part: Item, k: nat) {
    && k + |part.str| <= |it.str|
    && forall i: nat | i < |part.str| :: part.str[i] == it.str[k + i] && place(part, i) == place(it, k + i)
  }

  lemma {:induction false} PartGlyphs(place: Placing, it: Item, part: Item, k: nat, n: nat)
    requires PartOf(place, it, part, k) && n <= |part.str|
    ensures ItemGlyphs(place, it, k + n) == ItemGlyphs(place, it, k) + ItemGlyphs(place, part, n)
  {
    if n > 0 {
      PartGlyphs(place, it, part, k, n - 1);
      assert CharGlyph(place, part, n - 1) == CharGlyph(place, it, k + (n - 1));
    }
  }

  lemma GlyphsSnoc(place: Placing, items: seq<Item>, it: Item)
    ensures Glyphs(place, items + [it]) == Glyphs(place, items) + ItemGlyphs(place, it, |it.str|)
  {
    assert (items + [it])[..|items|] == items;
  }

  lemma {:induction false} GlyphsJoin(place: Placing, a: seq<Item>, b: seq<Item>)
    ensures Glyphs(place, a + b) == Glyphs(place, a) + Glyphs(place, b)
    decreases |b|
  {
    if b == [] {
      assert a + b == a;
    } else {
      var front, last := b[..|b| - 1], b[|b| - 1];
      assert b == front + [last] && a + b == (a + front) + [last];
      GlyphsJoin(place, a, front);
      GlyphsSnoc(place, a + front, last);
      GlyphsSnoc(place, front, last);
      AssocGlyphs(Glyphs(place, a), Glyphs(place, front), ItemGlyphs(place, last, |last.str|));
    }
  }

  lemma AssocGlyphs(a: seq<Glyph>, b: seq<Glyph>, c: seq<Glyph>)
    ensures (a + b) + c == a + (b + c)
  {
  }

  lemma GlyphsOfOne(place: Placing, it: Item)
    ensures Glyphs(place, [it]) == ItemGlyphs(place, it, |it.str|)
  {
    GlyphsSnoc(place, [], it);
    assert [] + [it] == [it];
  }

  lemma TwoPartsGlyphs(place: Placing, it: Item, p: Item, q: Item)
    requires |p.str| + |q.str| == |it.str| && PartOf(place, it, p, 0) && PartOf(place, it, q, |p.str|)
    ensures Glyphs(place, [p] + [q]) == Glyphs(place, [it])
  {
    PartGlyphs(place, it, p, 0, |p.str|);
    PartGlyphs(place, it, q, |p.str|, |q.str|);
    GlyphsJoin(place, [p], [q]);
    GlyphsOfOne(place, p);
    GlyphsOfOne(place, q);
    GlyphsOfOne(place, it);
  }

  lemma GlyphsReplaced(place: Placing, a: seq<Item>, x: seq<Item>, y: seq<Item>, b: seq<Item>)
    requires Glyphs(place, x) == Glyphs(place, y)
    ensures Glyphs(place, a + x + b) == Glyphs(place, a + y + b)
  {
    GlyphsJoin(place, a, x);
    GlyphsJoin(place, a + x, b);
    GlyphsJoin(place, a, y);
    GlyphsJoin(place, a + y, b);
  }

  lemma CutIsParts(page: Page, it: Item, k: nat)
    requires 0 < k < |it.str| && page.hypot(it.a, it.b) > 0.0 && page.hypot(it.c, it.d) > 0.0 && it.width >= 0.0
    ensures var parts := Cut(page, it, k); var place := PlacingOf(page);
            |parts[0].str| == k && |parts[1].str| == |it.str| - k && PartOf(place, it, parts[0], 0) && PartOf(place, it, parts[1], k)
  {
    var parts := Cut(page, it, k);
    PartsSame(page, it, k);
    PartFrom(PlacingOf(page), it, parts[0], 0);
    PartFrom(PlacingOf(page), it, parts[1], k);
  }

  lemma PartFrom(place: Placing, it: Item, part: Item, k: nat)
    requires k + |part.str| <= |it.str| && part.str == it.str[k..k + |part.str|]
    requires forall i: nat | i < |part.str| :: place(part, i) == place(it, k + i)
    ensures PartOf(place, it, part, k)
  {
    forall i: nat | i < |part.str| ensures part.str[i] == it.str[k + i] {
    }
  }

  lemma GlyphsCut(place: Placing, items: seq<Item>, j: nat, parts: seq<Item>)
    requires j < |items| && Glyphs(place, parts) == Glyphs(place, [items[j]])
    ensures Glyphs(place, items[..j] + parts + items[j + 1..]) == Glyphs(place, items)
  {
    GlyphsReplaced(place, items[..j], parts, [items[j]], items[j + 1..]);
    assert items == items[..j] + [items[j]] + items[j + 1..];
  }

  /** Cutting an item of the page anywhere leaves what is found, box by box and baseline by baseline, as it was. */
  lemma CuttingChangesNothing(page: Page, j: nat, k: nat)
    requires Proper(page) && j < |page.items| && 0 < k < |page.items[j].str|
    ensures var items := page.items[..j] + Cut(page, page.items[j], k) + page.items[j + 1..];
            Scan(page, Glyphs(PlacingOf(page), items)) == Scan(page, PageGlyphs(page))
  {
    CutGlyphs(page, page.items[j], k);
    GlyphsCut(PlacingOf(page), page.items, j, Cut(page, page.items[j], k));
  }

  lemma CutGlyphs(page: Page, it: Item, k: nat)
    requires 0 < k < |it.str| && page.hypot(it.a, it.b) > 0.0 && page.hypot(it.c, it.d) > 0.0 && it.width >= 0.0
    ensures Glyphs(PlacingOf(page), Cut(page, it, k)) == Glyphs(PlacingOf(page), [it])
  {
    var parts := Cut(page, it, k);
    CutIsParts(page, it, k);
    TwoPartsGlyphs(PlacingOf(page), it, parts[0], parts[1]);
    assert parts == [parts[0]] + [parts[1]];
  }

  // ---------------------------------------------------------------- a marker that reads straight to the right

  /** As seen, every character stands on the line y, none starts left of x, and the first one starts there. */
  ghost predicate Straight(qs: seq<Quad>, x: real, y: real) {
    && qs != [] && qs[0].base0 == Point(x, y)
    && forall i | 0 <= i < |qs| ::
         qs[i].base0.y == y && qs[i].base1.y == y
         && x <= qs[i].base0.x && x <= qs[i].base1.x && x <= qs[i].top0.x && x <= qs[i].top1.x
  }

  lemma {:induction false} XsFrom(qs: seq<Quad>, x: real)
    requires forall i | 0 <= i < |qs| :: x <= qs[i].base0.x && x <= qs[i].base1.x && x <= qs[i].top0.x && x <= qs[i].top1.x
    ensures forall v | v in Xs(qs) :: x <= v
    ensures qs != [] ==> qs[0].base0.x in Xs(qs)
  {
    if qs != [] {
      XsFrom(qs[..|qs| - 1], x);
      var q := qs[|qs| - 1];
      assert q.base0.x in [q.base0.x, q.top0.x, q.base1.x, q.top1.x];
    }
  }

  lemma {:induction false} BaseYsOn(qs: seq<Quad>, y: real)
    requires forall i | 0 <= i < |qs| :: qs[i].base0.y == y && qs[i].base1.y == y
    ensures Sum(BaseYs(qs)) == |BaseYs(qs)| as real * y
  {
    if qs != [] {
      var front := BaseYs(qs[..|qs| - 1]);
      BaseYsOn(qs[..|qs| - 1], y);
      SumTwo(front, y);
      Repeat(|front|, y);
    }
  }

  lemma SumTwo(ys: seq<real>, y: real)
    ensures Sum(ys + [y, y]) == Sum(ys) + y + y
  {
    assert (ys + [y, y])[..|ys| + 1] == ys + [y];
    assert (ys + [y])[..|ys|] == ys;
  }

  lemma Repeat(n: nat, y: real)
    ensures n as real * y + y + y == (n + 2) as real * y
  {
  }

  lemma MeanOfEqual(ys: seq<real>, y: real)
    requires ys != [] && Sum(ys) == |ys| as real * y
    ensures Mean(ys) == y
  {
  }

  /** The box of a straight marker starts, and its baseline lies, where its first character does. */
  lemma StraightBox(page: Page, gs: seq<Glyph>, x: real, y: real)
    requires gs != [] && AllPlaced(gs) && Straight(Quads(gs), x, y) && 0.0 <= x <= page.viewWidth && 0.0 <= y <= page.viewHeight
    ensures Measure(page, gs).Some?
    ensures Measure(page, gs).value.x == x / page.viewWidth && Measure(page, gs).value.baseline == y / page.viewHeight
  {
    var qs := Quads(gs);
    XsFrom(qs, x);
    BaseYsOn(qs, y);
    StraightBoxOf(Xs(qs), Ys(qs), BaseYs(qs), page.viewWidth, page.viewHeight, x, y);
  }

  lemma StraightBoxOf(xs: seq<real>, ys: seq<real>, baseYs: seq<real>, w: real, h: real, x: real, y: real)
    requires xs != [] && ys != [] && baseYs != [] && w > 0.0 && h > 0.0
    requires x in xs && (forall v | v in xs :: x <= v) && Sum(baseYs) == |baseYs| as real * y
    requires 0.0 <= x <= w && 0.0 <= y <= h
    ensures BoxOf(xs, ys, baseYs, w, h).x == x / w && BoxOf(xs, ys, baseYs, w, h).baseline == y / h
  {
    assert Anchors.Lowest(xs) == x;
    MeanOfEqual(baseYs, y);
    UnclampedFraction(x, w);
    UnclampedFraction(y, h);
  }

  lemma UnclampedFraction(a: real, b: real)
    requires 0.0 <= a <= b && b > 0.0
    ensures Clamp01(a / b) == a / b
  {
    UnitFraction(a, b);
  }

  lemma UnitFraction(a: real, b: real)
    requires 0.0 <= a <= b && b > 0.0
    ensures 0.0 <= a / b <= 1.0
  {
  }
}
