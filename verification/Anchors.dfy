/** Anchor scanning (anchors.ts): markers printed into a PDF are found again in the text items extracted from it. */
module Anchors {
  import opened Basics
  import opened EnvelopeFields
  import opened FieldGeometry

  /** A text item of the page: its transform places the start of its baseline at (e, f). */
  datatype Item = Item(str: string, a: real, b: real, c: real, d: real, e: real, f: real, width: real)

  /** `toView` maps PDF space to the visible page in points; `hypot` is the length of a vector. */
  datatype PageData = PageData(
    number: int,
    viewWidth: real,
    viewHeight: real,
    toView: (real, real) -> Point,
    hypot: (real, real) -> real,
    items: seq<Item>)

  type Page = p: PageData | p.viewWidth > 0.0 && p.viewHeight > 0.0
    witness PageData(1, 595.0, 842.0, (x: real, y: real) => Point(x, y), (x: real, y: real) => 1.0, [])

  /** The corners of one character as seen: baseline and top, at its start and at its end. */
  datatype Quad = Quad(base0: Point, top0: Point, base1: Point, top1: Point)

  /** A character of the compact text, with its corners unless its item is degenerate. */
  datatype Glyph = Glyph(ch: char, quad: Option<Quad>)

  datatype AnchorBox = AnchorBox(x: real, y: real, width: real, height: real, baseline: real)

  datatype FoundAnchor = FoundAnchor(text: string, kind: FieldType, role: string, page: int, box: AnchorBox)

  datatype InvalidAnchor = InvalidAnchor(text: string, page: int)

  datatype AnchorScan = AnchorScan(anchors: seq<FoundAnchor>, invalid: seq<InvalidAnchor>)

  // ---------------------------------------------------------------- characters

  /** The class \s. */
  predicate Space(c: char) {
    var n := c as int;
    9 <= n <= 13 || n == 0x20 || n == 0xA0 || n == 0x1680 || 0x2000 <= n <= 0x200A || n == 0x2028 || n == 0x2029
    || n == 0x202F || n == 0x205F || n == 0x3000 || n == 0xFEFF
  }

  /** Lower case, as far as it can produce ASCII: capital letters and the Kelvin sign. */
  function Lower(c: char): char {
    if 'A' <= c <= 'Z' then (c as int + 32) as char
    else if c as int == 0x212A then 'k'
    else c
  }

  function LowerText(s: string): (r: string)
    ensures |r| == |s|
  {
    seq(|s|, i requires 0 <= i < |s| => Lower(s[i]))
  }

  function Strip(s: string): string {
    if s == "" then "" else Strip(s[..|s| - 1]) + if Space(s[|s| - 1]) then "" else [s[|s| - 1]]
  }

  // ---------------------------------------------------------------- from items to glyphs

  function QuadOf(page: Page, it: Item, index: nat): Option<Quad> {
    var dirLen := page.hypot(it.a, it.b);
    var size := page.hypot(it.c, it.d);
    if !(dirLen > 0.0) || !(size > 0.0) || !(it.width >= 0.0) || |it.str| == 0 then None
    else Some(Edges(page, it, dirLen, size, Offset(it, index), Offset(it, index + 1)))
  }

  /** Where each character of an item is. */
  type Placing = (Item, nat) -> Option<Quad>

  function PlacingOf(page: Page): Placing {
    (it: Item, index: nat) => QuadOf(page, it, index)
  }

  /** How far along the baseline a character starts: all characters take the same width. */
  function Offset(it: Item, index: nat): real
    requires |it.str| > 0
  {
    it.width * index as real / |it.str| as real
  }

  /** The corners of the stretch of text from `t0` to `t1` along the baseline. */
  function Edges(page: Page, it: Item, dirLen: real, size: real, t0: real, t1: real): Quad
    requires dirLen > 0.0 && size > 0.0
  {
    var x0, y0 := it.e + it.a / dirLen * t0, it.f + it.b / dirLen * t0;
    var x1, y1 := it.e + it.a / dirLen * t1, it.f + it.b / dirLen * t1;
    var ux, uy := it.c / size * size, it.d / size * size;
    Quad(page.toView(x0, y0), page.toView(x0 + ux, y0 + uy), page.toView(x1, y1), page.toView(x1 + ux, y1 + uy))
  }

  /** The glyphs of the first `n` characters of an item, spaces left out. */
  function ItemGlyphs(place: Placing, it: Item, n: nat): seq<Glyph>
    requires n <= |it.str|
  {
    if n == 0 then [] else ItemGlyphs(place, it, n - 1) + CharGlyph(place, it, n - 1)
  }

  function CharGlyph(place: Placing, it: Item, index: nat): seq<Glyph>
    requires index < |it.str|
  {
    if Space(it.str[index]) then [] else [Glyph(it.str[index], place(it, index))]
  }

  function Glyphs(place: Placing, items: seq<Item>): seq<Glyph> {
    if items == [] then []
    else
      var it := items[|items| - 1];
      Glyphs(place, items[..|items| - 1]) + ItemGlyphs(place, it, |it.str|)
  }

  function PageGlyphs(page: Page): seq<Glyph> {
    Glyphs(PlacingOf(page), page.items)
  }

  function Text(gs: seq<Glyph>): (s: string)
    ensures |s| == |gs|
  {
    seq(|gs|, i requires 0 <= i < |gs| => gs[i].ch)
  }

  // ---------------------------------------------------------------- measuring

  function Lowest(xs: seq<real>): (m: real)
    requires xs != []
    ensures m in xs && forall x | x in xs :: m <= x
  {
    if |xs| == 1 then xs[0]
    else
      var rest := Lowest(xs[..|xs| - 1]);
      var last := xs[|xs| - 1];
      assert xs == xs[..|xs| - 1] + [last];
      if last < rest then last else rest
  }

  function Highest(xs: seq<real>): (m: real)
    requires xs != []
    ensures m in xs && forall x | x in xs :: x <= m
  {
    if |xs| == 1 then xs[0]
    else
      var rest := Highest(xs[..|xs| - 1]);
      var last := xs[|xs| - 1];
      assert xs == xs[..|xs| - 1] + [last];
      if last > rest then last else rest
  }

  function Sum(xs: seq<real>): real {
    if xs == [] then 0.0 else Sum(xs[..|xs| - 1]) + xs[|xs| - 1]
  }

  function Clamp01(v: real): real {
    if v < 0.0 then 0.0 else if v > 1.0 then 1.0 else v
  }

  predicate AllPlaced(gs: seq<Glyph>) {
    forall i | 0 <= i < |gs| :: gs[i].quad.Some?
  }

  function Quads(gs: seq<Glyph>): (qs: seq<Quad>)
    requires AllPlaced(gs)
    ensures |qs| == |gs|
  {
    seq(|gs|, i requires 0 <= i < |gs| => gs[i].quad.value)
  }

  function Xs(qs: seq<Quad>): (xs: seq<real>)
    ensures |xs| == 4 * |qs|
  {
    if qs == [] then []
    else
      var q := qs[|qs| - 1];
      Xs(qs[..|qs| - 1]) + [q.base0.x, q.top0.x, q.base1.x, q.top1.x]
  }

  function Ys(qs: seq<Quad>): (ys: seq<real>)
    ensures |ys| == 4 * |qs|
  {
    if qs == [] then []
    else
      var q := qs[|qs| - 1];
      Ys(qs[..|qs| - 1]) + [q.base0.y, q.top0.y, q.base1.y, q.top1.y]
  }

  function BaseYs(qs: seq<Quad>): (ys: seq<real>)
    ensures |ys| == 2 * |qs|
  {
    if qs == [] then []
    else
      var q := qs[|qs| - 1];
      BaseYs(qs[..|qs| - 1]) + [q.base0.y, q.base1.y]
  }

  function Mean(xs: seq<real>): real
    requires xs != []
  {
    Sum(xs) / |xs| as real
  }

  /** The bounding box of the corners and the mean baseline, on a page of the given size. */
  function BoxOf(xs: seq<real>, ys: seq<real>, baseYs: seq<real>, width: real, height: real): AnchorBox
    requires xs != [] && ys != [] && baseYs != [] && width > 0.0 && height > 0.0
  {
    var minX, maxX := Clamp01(Lowest(xs) / width), Clamp01(Highest(xs) / width);
    var minY, maxY := Clamp01(Lowest(ys) / height), Clamp01(Highest(ys) / height);
    AnchorBox(minX, minY, maxX - minX, maxY - minY, Clamp01(Mean(baseYs) / height))
  }

  function Measure(page: Page, gs: seq<Glyph>): Option<AnchorBox>
  {
    if gs == [] || !AllPlaced(gs) then None
    else
      var qs := Quads(gs);
      Some(BoxOf(Xs(qs), Ys(qs), BaseYs(qs), page.viewWidth, page.viewHeight))
  }

  // ---------------------------------------------------------------- recognising a marker

  function RunLength(s: string): (n: nat)
    ensures n <= |s| && (forall i | 0 <= i < n :: s[i] != ']') && (n < |s| ==> s[n] == ']')
  {
    if s == "" || s[0] == ']' then 0 else 1 + RunLength(s[1..])
  }

  predicate Opens(s: string) {
    |s| >= 5 && s[0] == '[' && s[1] == '[' && s[2] in "aA" && s[3] in "sS" && s[4] == ':'
  }

  /** The length of the match of \[\[AS:([^\]]{0,80})\]\] at the start of the text, 0 if there is none. */
  function MatchLength(s: string): (n: nat)
    ensures n <= |s| && (n > 0 ==> n >= 7)
  {
    if !Opens(s) then 0
    else
      var n := RunLength(s[5..]);
      if n <= 80 && |s| >= n + 7 && s[5 + n] == ']' && s[6 + n] == ']' then n + 7 else 0
  }

  predicate Letter(c: char) {
    'a' <= c <= 'z'
  }

  predicate LetterOrDigit(c: char) {
    Letter(c) || '0' <= c <= '9'
  }

  predicate LegalRole(role: string) {
    1 <= |role| <= 40 && LetterOrDigit(role[0]) && forall c | c in role :: LetterOrDigit(c) || c == '_' || c == '-'
  }

  function Letters(s: string): (n: nat)
    ensures n <= |s| && (forall i | 0 <= i < n :: Letter(s[i])) && (n < |s| ==> !Letter(s[n]))
  {
    if s == "" || !Letter(s[0]) then 0 else 1 + Letters(s[1..])
  }

  /** ([a-z]+):(role), the whole of the text. */
  function ParseInner(s: string): Option<(string, string)> {
    var n := Letters(s);
    if n > 0 && n < |s| && s[n] == ':' && LegalRole(s[n + 1..]) then Some((s[..n], s[n + 1..])) else None
  }

  function KindOf(name: string): Option<FieldType> {
    if name == "assinatura" then Some(SignatureField)
    else if name == "rubrica" then Some(InitialsField)
    else if name == "nome" then Some(NameField)
    else if name == "data" then Some(DateField)
    else None
  }

  type Recogniser = seq<Glyph> -> Result<FoundAnchor, InvalidAnchor>

  /** What one match becomes. */
  function Recognised(page: Page, gs: seq<Glyph>): Result<FoundAnchor, InvalidAnchor> {
    var text := Text(gs);
    var inner := InnerOf(text);
    var box := Measure(page, gs);
    if inner.None? || box.None? then Failure(InvalidAnchor(text, page.number))
    else Success(FoundAnchor(text, inner.value.0, inner.value.1, page.number, box.value))
  }

  /** The type and the role that a marker names. */
  function InnerOf(text: string): Option<(FieldType, string)> {
    if |text| < 7 then None
    else
      var inner := ParseInner(LowerText(text[5..|text| - 2]));
      if inner.None? || KindOf(inner.value.0).None? then None else Some((KindOf(inner.value.0).value, inner.value.1))
  }

  function RecogniserOf(page: Page): Recogniser {
    (gs: seq<Glyph>) => Recognised(page, gs)
  }

  datatype Match = Match(start: nat, length: nat)

  /** All matches from left to right, each search going on after the last match. */
  function Matches(s: string, from: nat): (ms: seq<Match>)
    requires from <= |s|
    ensures forall i | 0 <= i < |ms| :: from <= ms[i].start && ms[i].start + ms[i].length <= |s| && ms[i].length >= 7
    decreases |s| - from
  {
    if from == |s| then []
    else
      var n := MatchLength(s[from..]);
      if n == 0 then Matches(s, from + 1) else [Match(from, n)] + Matches(s, from + n)
  }

  predicate Within(ms: seq<Match>, n: nat) {
    forall i | 0 <= i < |ms| :: ms[i].start + ms[i].length <= n && ms[i].length >= 7
  }

  function After(scan: AnchorScan, r: Result<FoundAnchor, InvalidAnchor>): AnchorScan {
    if r.Success? then AnchorScan(scan.anchors + [r.value], scan.invalid)
    else AnchorScan(scan.anchors, scan.invalid + [r.error])
  }

  /** The outcomes of the matches, in order. */
  function Collected(recognise: Recogniser, gs: seq<Glyph>, ms: seq<Match>): AnchorScan
    requires Within(ms, |gs|)
  {
    if ms == [] then AnchorScan([], [])
    else
      var m := ms[|ms| - 1];
      After(Collected(recognise, gs, ms[..|ms| - 1]), recognise(gs[m.start..m.start + m.length]))
  }

  function Scan(page: Page, gs: seq<Glyph>): AnchorScan {
    Collected(RecogniserOf(page), gs, Matches(Text(gs), 0))
  }

  // ---------------------------------------------------------------- as it is written

  datatype CharRef = CharRef(item: nat, index: nat)

  predicate Refers(items: seq<Item>, refs: seq<CharRef>) {
    forall i | 0 <= i < |refs| :: refs[i].item < |items| && refs[i].index < |items[refs[i].item].str|
  }

  function Referred(place: Placing, items: seq<Item>, refs: seq<CharRef>): (gs: seq<Glyph>)
    requires Refers(items, refs)
    ensures |gs| == |refs|
  {
    seq(|refs|, i requires 0 <= i < |refs| =>
      Glyph(items[refs[i].item].str[refs[i].index], place(items[refs[i].item], refs[i].index)))
  }

  lemma ReferredMore(place: Placing, items: seq<Item>, refs: seq<CharRef>, ref: CharRef)
    requires Refers(items, refs) && ref.item < |items| && ref.index < |items[ref.item].str|
    ensures Refers(items, refs + [ref])
    ensures Referred(place, items, refs + [ref])
            == Referred(place, items, refs) + [Glyph(items[ref.item].str[ref.index], place(items[ref.item], ref.index))]
    ensures Text(Referred(place, items, refs + [ref])) == Text(Referred(place, items, refs)) + [items[ref.item].str[ref.index]]
  {
  }

  /** The text without spaces, and where each of its characters comes from. */
  method Compact(items: seq<Item>, ghost place: Placing) returns (compact: string, refs: seq<CharRef>)
    ensures Refers(items, refs) && Referred(place, items, refs) == Glyphs(place, items)
    ensures compact == Text(Glyphs(place, items))
  {
    compact, refs := "", [];
    var item := 0;
    while item < |items|
      invariant 0 <= item <= |items|
      invariant Refers(items, refs) && Referred(place, items, refs) == Glyphs(place, items[..item])
      invariant compact == Text(Referred(place, items, refs))
    {
      assert items[..item + 1][..item] == items[..item];
      compact, refs := CompactItem(items, place, item, compact, refs);
      item := item + 1;
    }
    assert items[..item] == items;
  }

  method CompactItem(items: seq<Item>, ghost place: Placing, item: nat, compact: string, refs: seq<CharRef>)
    returns (compact': string, refs': seq<CharRef>)
    requires item < |items| && Refers(items, refs) && compact == Text(Referred(place, items, refs))
    ensures Refers(items, refs') && compact' == Text(Referred(place, items, refs'))
    ensures Referred(place, items, refs') == Referred(place, items, refs) + ItemGlyphs(place, items[item], |items[item].str|)
  {
    var it := items[item];
    compact', refs' := compact, refs;
    var index := 0;
    while index < |it.str|
      invariant 0 <= index <= |it.str|
      invariant Refers(items, refs') && compact' == Text(Referred(place, items, refs'))
      invariant Referred(place, items, refs') == Referred(place, items, refs) + ItemGlyphs(place, it, index)
    {
      var ch := it.str[index];
      if !Space(ch) {
        ReferredMore(place, items, refs', CharRef(item, index));
        compact' := compact' + [ch];
        refs' := refs' + [CharRef(item, index)];
      }
      index := index + 1;
    }
  }

  lemma PlacedMore(gs: seq<Glyph>, i: nat)
    requires i < |gs| && AllPlaced(gs[..i]) && gs[i].quad.Some?
    ensures var q := gs[i].quad.value; var qs := Quads(gs[..i]);
            && AllPlaced(gs[..i + 1])
            && Xs(Quads(gs[..i + 1])) == Xs(qs) + [q.base0.x, q.top0.x, q.base1.x, q.top1.x]
            && Ys(Quads(gs[..i + 1])) == Ys(qs) + [q.base0.y, q.top0.y, q.base1.y, q.top1.y]
            && BaseYs(Quads(gs[..i + 1])) == BaseYs(qs) + [q.base0.y, q.base1.y]
  {
    assert gs[..i + 1] == gs[..i] + [gs[i]];
    assert Quads(gs[..i + 1])[..i] == Quads(gs[..i]);
  }

  method MeasureChars(page: Page, refs: seq<CharRef>) returns (box: Option<AnchorBox>)
    requires Refers(page.items, refs)
    ensures box == Measure(page, Referred(PlacingOf(page), page.items, refs))
  {
    var xs: seq<real>, ys: seq<real>, baseYs: seq<real> := [], [], [];
    ghost var gs := Referred(PlacingOf(page), page.items, refs);
    var i := 0;
    while i < |refs|
      invariant 0 <= i <= |refs|
      invariant AllPlaced(gs[..i])
      invariant xs == Xs(Quads(gs[..i])) && ys == Ys(Quads(gs[..i])) && baseYs == BaseYs(Quads(gs[..i]))
    {
      var quad := PlacingOf(page)(page.items[refs[i].item], refs[i].index);
      assert gs[i].quad == quad;
      if quad.None? { return None; }
      var q := quad.value;
      PlacedMore(gs, i);
      xs := xs + [q.base0.x, q.top0.x, q.base1.x, q.top1.x];
      ys := ys + [q.base0.y, q.top0.y, q.base1.y, q.top1.y];
      baseYs := baseYs + [q.base0.y, q.base1.y];
      i := i + 1;
    }
    assert gs[..i] == gs;
    if |xs| == 0 { return None; }
    return Some(BoxOf(xs, ys, baseYs, page.viewWidth, page.viewHeight));
  }

  lemma ReferredSlice(place: Placing, items: seq<Item>, refs: seq<CharRef>, i: nat, j: nat)
    requires Refers(items, refs) && i <= j <= |refs|
    ensures Refers(items, refs[i..j]) && Referred(place, items, refs[i..j]) == Referred(place, items, refs)[i..j]
    ensures Text(Referred(place, items, refs[i..j])) == Text(Referred(place, items, refs))[i..j]
  {
  }

  method ScanPage(page: Page) returns (scan: AnchorScan)
    ensures scan == Scan(page, PageGlyphs(page))
  {
    var compact, refs := Compact(page.items, PlacingOf(page));
    scan := Collect(page, compact, refs, Matches(compact, 0));
  }

  method Collect(page: Page, compact: string, refs: seq<CharRef>, matches: seq<Match>) returns (scan: AnchorScan)
    requires Refers(page.items, refs) && compact == Text(Referred(PlacingOf(page), page.items, refs)) && Within(matches, |compact|)
    ensures scan == Collected(RecogniserOf(page), Referred(PlacingOf(page), page.items, refs), matches)
  {
    scan := AnchorScan([], []);
    var i := 0;
    assert SoFar(RecogniserOf(page), Referred(PlacingOf(page), page.items, refs), matches, 0, scan);
    while i < |matches|
      invariant 0 <= i <= |matches|
      invariant SoFar(RecogniserOf(page), Referred(PlacingOf(page), page.items, refs), matches, i, scan)
    {
      var m := matches[i];
      ReferredSlice(PlacingOf(page), page.items, refs, m.start, m.start + m.length);
      var found := Recognise(page, compact[m.start..m.start + m.length], refs[m.start..m.start + m.length]);
      ghost var before := scan;
      scan := Add(scan, found);
      OneMore(RecogniserOf(page), Referred(PlacingOf(page), page.items, refs), matches, i, before,
              Referred(PlacingOf(page), page.items, refs[m.start..m.start + m.length]), found, scan);
      i := i + 1;
    }
    AllCollected(RecogniserOf(page), Referred(PlacingOf(page), page.items, refs), matches, scan);
  }

  ghost predicate SoFar(recognise: Recogniser, gs: seq<Glyph>, ms: seq<Match>, i: nat, scan: AnchorScan) {
    i <= |ms| && Within(ms, |gs|) && scan == Collected(recognise, gs, ms[..i])
  }

  method Add(scan: AnchorScan, found: Result<FoundAnchor, InvalidAnchor>) returns (r: AnchorScan)
    ensures r == After(scan, found)
  {
    if found.Success? {
      return scan.(anchors := scan.anchors + [found.value]);
    }
    return scan.(invalid := scan.invalid + [found.error]);
  }

  lemma OneMore(recognise: Recogniser, gs: seq<Glyph>, ms: seq<Match>, i: nat, scan: AnchorScan,
                slice: seq<Glyph>, found: Result<FoundAnchor, InvalidAnchor>, scan': AnchorScan)
    requires i < |ms| && SoFar(recognise, gs, ms, i, scan)
    requires slice == gs[ms[i].start..ms[i].start + ms[i].length] && found == recognise(slice) && scan' == After(scan, found)
    ensures SoFar(recognise, gs, ms, i + 1, scan')
  {
    assert ms[..i + 1][..i] == ms[..i];
  }

  lemma AllCollected(recognise: Recogniser, gs: seq<Glyph>, ms: seq<Match>, scan: AnchorScan)
    requires SoFar(recognise, gs, ms, |ms|, scan)
    ensures scan == Collected(recognise, gs, ms)
  {
    assert ms[..|ms|] == ms;
  }

  method Recognise(page: Page, text: string, refs: seq<CharRef>) returns (r: Result<FoundAnchor, InvalidAnchor>)
    requires Refers(page.items, refs) && text == Text(Referred(PlacingOf(page), page.items, refs))
    ensures r == RecogniserOf(page)(Referred(PlacingOf(page), page.items, refs))
  {
    var inner := InnerOf(text);
    if inner.None? { return Failure(InvalidAnchor(text, page.number)); }
    var box := MeasureChars(page, refs);
    if box.None? { return Failure(InvalidAnchor(text, page.number)); }
    return Success(FoundAnchor(text, inner.value.0, inner.value.1, page.number, box.value));
  }
}
