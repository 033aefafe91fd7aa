/** Line breaking (pdf-writer.ts): words go on the line while they fit, longer words are chopped. Widths come from
    the font and are any function that gives the empty text no width. */
module WrapText {
  import opened Basics

  type Width = string -> real

  // ---------------------------------------------------------------- characters and words

  /** The characters of the standard fonts' encoding beyond Latin-1. */
  const EXTRA: seq<int> := [0x20AC, 0x201A, 0x192, 0x201E, 0x2026, 0x2020, 0x2021, 0x2C6, 0x2030, 0x160, 0x2039, 0x152, 0x17D,
                            0x2018, 0x2019, 0x201C, 0x201D, 0x2022, 0x2013, 0x2014, 0x2DC, 0x2122, 0x161, 0x203A, 0x153, 0x17E, 0x178]

  function SafeChar(c: char): char {
    var n := c as int;
    if 0x20 <= n <= 0x7E || 0xA0 <= n <= 0xFF || n in EXTRA then c
    else if c == '\n' || c == '\t' then ' '
    else '?'
  }

  function Safe(s: string): (r: string)
    ensures |r| == |s|
  {
    seq(|s|, i requires 0 <= i < |s| => SafeChar(s[i]))
  }

  /** The printable character that a byte of windows-1252 stands for. */
  function Shown(b: nat): Option<int> {
    match b
    case 0x80 => Some(0x20AC)
    case 0x81 => None
    case 0x82 => Some(0x201A)
    case 0x83 => Some(0x192)
    case 0x84 => Some(0x201E)
    case 0x85 => Some(0x2026)
    case 0x86 => Some(0x2020)
    case 0x87 => Some(0x2021)
    case 0x88 => Some(0x2C6)
    case 0x89 => Some(0x2030)
    case 0x8A => Some(0x160)
    case 0x8B => Some(0x2039)
    case 0x8C => Some(0x152)
    case 0x8D => None
    case 0x8E => Some(0x17D)
    case 0x8F => None
    case 0x90 => None
    case 0x91 => Some(0x2018)
    case 0x92 => Some(0x2019)
    case 0x93 => Some(0x201C)
    case 0x94 => Some(0x201D)
    case 0x95 => Some(0x2022)
    case 0x96 => Some(0x2013)
    case 0x97 => Some(0x2014)
    case 0x98 => Some(0x2DC)
    case 0x99 => Some(0x2122)
    case 0x9A => Some(0x161)
    case 0x9B => Some(0x203A)
    case 0x9C => Some(0x153)
    case 0x9D => None
    case 0x9E => Some(0x17E)
    case 0x9F => Some(0x178)
    case _ => if 0x20 <= b <= 0xFF && b != 0x7F then Some(b) else None
  }

  ghost predicate Encodable(c: char) {
    exists b: nat :: Shown(b) == Some(c as int)
  }

  lemma ShownIsKnown(b: nat)
    ensures Shown(b).Some? ==> var n := Shown(b).value; 0x20 <= n <= 0x7E || 0xA0 <= n <= 0xFF || n in EXTRA
  {
  }

  /** The bytes of the extra characters. */
  const EXTRA_BYTES: seq<nat> :=
    [0x80, 0x82, 0x83, 0x84, 0x85, 0x86, 0x87, 0x88, 0x89, 0x8A, 0x8B, 0x8C, 0x8E, 
     0x91, 0x92, 0x93, 0x94, 0x95, 0x96, 0x97, 0x98, 0x99, 0x9A, 0x9B, 0x9C, 0x9E, 0x9F]

  lemma ExtraIsShown(i: nat)
    requires i < |EXTRA|
    ensures |EXTRA_BYTES| == |EXTRA| && Shown(EXTRA_BYTES[i]) == Some(EXTRA[i])
  {
  }

  lemma EncodableExactly(c: char)
    ensures Encodable(c) <==> 0x20 <= c as int <= 0x7E || 0xA0 <= c as int <= 0xFF || c as int in EXTRA
  {
    var n: nat := c as int;
    assert 0x20 <= n <= 0x7E || 0xA0 <= n <= 0xFF ==> Shown(n) == Some(n);
    if n in EXTRA {
      var i: nat :| i < |EXTRA| && EXTRA[i] == n;
      ExtraIsShown(i);
    }
    if Encodable(c) {
      var b: nat :| Shown(b) == Some(n);
      ShownIsKnown(b);
    }
  }

  /** Whatever the standard fonts can show stays as it is, line feeds and tabs become spaces, and everything else a
      question mark; so safe text is not changed again. */
  lemma SafeExactly(s: string)
    ensures |Safe(s)| == |s|
    ensures forall i | 0 <= i < |s| ::
              Safe(s)[i] == if Encodable(s[i]) then s[i] else if s[i] == '\n' || s[i] == '\t' then ' ' else '?'
    ensures Safe(Safe(s)) == Safe(s)
  {
    forall i | 0 <= i < |s|
      ensures Safe(s)[i] == if Encodable(s[i]) then s[i] else if s[i] == '\n' || s[i] == '\t' then ' ' else '?'
    {
      EncodableExactly(s[i]);
    }
  }

  /** The parts of a text between separators; there is always at least one. */
  function SplitAt(s: string, separator: char): (parts: seq<string>)
    ensures parts != []
  {
    if s == "" then [""]
    else
      var rest := SplitAt(s[1..], separator);
      if s[0] == separator then [""] + rest else [[s[0]] + rest[0]] + rest[1..]
  }

  function Words(s: string): seq<string> {
    SplitAt(s, ' ')
  }

  /** A line break is a line feed, with a carriage return before it if there is one. */
  function Paragraphs(s: string): seq<string> {
    var parts := SplitAt(s, '\n');
    seq(|parts|, i requires 0 <= i < |parts| => if i < |parts| - 1 then WithoutReturn(parts[i]) else parts[i])
  }

  function WithoutReturn(s: string): string {
    if s != "" && s[|s| - 1] == '\r' then s[..|s| - 1] else s
  }

  function JoinWords(words: seq<string>): string {
    if words == [] then "" else if |words| == 1 then words[0] else JoinWords(words[..|words| - 1]) + " " + words[|words| - 1]
  }

  // ---------------------------------------------------------------- the layout

  /** Why a line ends: the next word would not fit, a word had to be chopped, or the text ends. */
  datatype Ending = BeforeWord(word: string) | Chopped(rest: string) | AtEnd

  datatype Line = Line(text: string, ending: Ending)

  /** `cut` counts down from the whole text to the longest prefix that fits, but not below one character. */
  function CutFrom(width: Width, maxWidth: real, rest: string, cut: nat): (n: nat)
    requires cut <= |rest|
    ensures n <= cut && (cut >= 1 ==> n >= 1)
  {
    if cut > 1 && width(rest[..cut]) > maxWidth then CutFrom(width, maxWidth, rest, cut - 1) else cut
  }

  /** The lines that a word longer than the line is chopped into, and what remains of it. */
  function Chop(width: Width, maxWidth: real, rest: string): (r: (seq<Line>, string))
    requires width("") <= maxWidth
    decreases |rest|
  {
    if width(rest) <= maxWidth then ([], rest)
    else
      var cut := CutFrom(width, maxWidth, rest, |rest|);
      var r := Chop(width, maxWidth, rest[cut..]);
      ([Line(rest[..cut], Chopped(rest))] + r.0, r.1)
  }

  function Candidate(line: string, word: string): string {
    if line == "" then word else line + " " + word
  }

  /** The line that a break finishes, if it holds anything. */
  function Flushed(line: string, word: string): seq<Line> {
    if line == "" then [] else [Line(line, BeforeWord(word))]
  }

  function Layout(width: Width, maxWidth: real, words: seq<string>, line: string): seq<Line>
    requires width("") <= maxWidth
    decreases |words|
  {
    if words == [] then [Line(line, AtEnd)]
    else
      var word := words[0];
      if width(Candidate(line, word)) <= maxWidth then Layout(width, maxWidth, words[1..], Candidate(line, word))
      else
        var r := Chop(width, maxWidth, word);
        Flushed(line, word) + r.0 + Layout(width, maxWidth, words[1..], r.1)
  }

  function Texts(lines: seq<Line>): (texts: seq<string>)
    ensures |texts| == |lines|
  {
    seq(|lines|, i requires 0 <= i < |lines| => lines[i].text)
  }

  function WrapParagraph(width: Width, maxWidth: real, paragraph: string): seq<string>
    requires width("") <= maxWidth
  {
    Texts(Layout(width, maxWidth, Words(paragraph), ""))
  }

  function WrapAll(width: Width, maxWidth: real, paragraphs: seq<string>): seq<string>
    requires width("") <= maxWidth
  {
    if paragraphs == [] then []
    else WrapAll(width, maxWidth, paragraphs[..|paragraphs| - 1]) + WrapParagraph(width, maxWidth, paragraphs[|paragraphs| - 1])
  }

  // ---------------------------------------------------------------- every line fits and every break is forced

  lemma {:induction false} CutIsLongest(width: Width, maxWidth: real, rest: string, cut: nat)
    requires 1 <= cut <= |rest|
    ensures var n := CutFrom(width, maxWidth, rest, cut);
            && (n == 1 || width(rest[..n]) <= maxWidth)
            && forall c | n < c <= cut :: width(rest[..c]) > maxWidth
  {
    if cut > 1 && width(rest[..cut]) > maxWidth {
      CutIsLongest(width, maxWidth, rest, cut - 1);
    }
  }

  /** A line fits or is a single character; it ends before a word only if that word would not have fitted after it,
      and inside a word only after the longest prefix that fits. */
  ghost predicate LineOk(width: Width, maxWidth: real, l: Line) {
    && (width(l.text) <= maxWidth || |l.text| == 1)
    && (l.ending.BeforeWord? ==> l.text != "" && width(l.text + " " + l.ending.word) > maxWidth)
    && (l.ending.Chopped? ==>
          && l.text != "" && l.text <= l.ending.rest && width(l.ending.rest) > maxWidth
          && forall c | |l.text| < c <= |l.ending.rest| :: width(l.ending.rest[..c]) > maxWidth)
  }

  ghost predicate LinesOk(width: Width, maxWidth: real, lines: seq<Line>) {
    forall i | 0 <= i < |lines| :: LineOk(width, maxWidth, lines[i])
  }

  lemma {:induction false} ChopOk(width: Width, maxWidth: real, rest: string)
    requires width("") <= maxWidth
    ensures var r := Chop(width, maxWidth, rest); LinesOk(width, maxWidth, r.0) && width(r.1) <= maxWidth
    decreases |rest|
  {
    if width(rest) > maxWidth {
      assert rest != "";
      CutIsLongest(width, maxWidth, rest, |rest|);
      ChopOk(width, maxWidth, rest[CutFrom(width, maxWidth, rest, |rest|)..]);
    }
  }

  lemma {:induction false} LayoutOk(width: Width, maxWidth: real, words: seq<string>, line: string)
    requires width("") <= maxWidth && width(line) <= maxWidth
    ensures LinesOk(width, maxWidth, Layout(width, maxWidth, words, line))
    decreases |words|
  {
    if words != [] {
      var word := words[0];
      if width(Candidate(line, word)) <= maxWidth {
        LayoutOk(width, maxWidth, words[1..], Candidate(line, word));
      } else {
        ChopOk(width, maxWidth, word);
        LayoutOk(width, maxWidth, words[1..], Chop(width, maxWidth, word).1);
      }
    }
  }

  // ---------------------------------------------------------------- and the endings tell the truth

  ghost predicate EndsAWord(rest: string, words: seq<string>) {
    exists k, n :: 0 <= k < |words| && 0 <= n <= |words[k]| && rest == words[k][n..]
  }

  /** A line starts with this (part of a) word: whole if it fits on a line, otherwise by chopping it. */
  ghost predicate Begins(width: Width, maxWidth: real, l: Line, part: string) {
    if width(part) > maxWidth then l.ending == Chopped(part) else part == "" || Words(l.text)[0] == part
  }

  /** What a line says it breaks before or inside is a word of the text, and the next line goes on with just that. */
  ghost predicate GoesOn(width: Width, maxWidth: real, words: seq<string>, l: Line, next: Line) {
    match l.ending
    case AtEnd => false
    case BeforeWord(word) => word in words && Begins(width, maxWidth, next, word)
    case Chopped(rest) => EndsAWord(rest, words) && l.text <= rest && Begins(width, maxWidth, next, rest[|l.text|..])
  }

  /** Only the last line is at the end, and every other one is continued by its successor. */
  ghost predicate Chained(width: Width, maxWidth: real, words: seq<string>, lines: seq<Line>) {
    && lines != [] && lines[|lines| - 1].ending.AtEnd?
    && forall i | 0 <= i < |lines| - 1 :: GoesOn(width, maxWidth, words, lines[i], lines[i + 1])
  }

  ghost predicate WordsOf(words: seq<string>, whole: seq<string>) {
    forall i | 0 <= i < |words| :: words[i] in whole && ' ' !in words[i]
  }

  lemma {:induction false} SpacelessIsOneWord(s: string)
    requires ' ' !in s
    ensures Words(s) == [s]
  {
    NoSeparator(s, ' ');
  }

  lemma {:induction false} WordsHaveNoSpace(s: string)
    ensures WordsOf(Words(s), Words(s))
  {
    if s != "" {
      WordsHaveNoSpace(s[1..]);
      var rest := SplitAt(s[1..], ' ');
      if s[0] != ' ' {
        assert ' ' !in rest[0];
        forall i | 0 <= i < |Words(s)| ensures ' ' !in Words(s)[i] {
          if i > 0 {
            assert Words(s)[i] == rest[i];
          }
        }
      }
    }
  }

  lemma {:induction false} FirstWordStays(line: string, word: string)
    ensures Words(line + " " + word)[0] == Words(line)[0]
  {
    if line == "" {
      assert ("" + " " + word)[0] == ' ';
    } else {
      assert (line + " " + word)[1..] == line[1..] + " " + word;
      FirstWordStays(line[1..], word);
    }
  }

  lemma ChainCons(width: Width, maxWidth: real, words: seq<string>, l: Line, lines: seq<Line>)
    requires Chained(width, maxWidth, words, lines) && GoesOn(width, maxWidth, words, l, lines[0])
    ensures Chained(width, maxWidth, words, [l] + lines)
  {
    var all := [l] + lines;
    forall i | 0 <= i < |all| - 1 ensures GoesOn(width, maxWidth, words, all[i], all[i + 1]) {
      if i > 0 {
        assert all[i] == lines[i - 1] && all[i + 1] == lines[i];
      }
    }
  }

  /** The chopped lines of a word, before lines that start with what is left of it. */
  lemma {:induction false} ChopChained(width: Width, maxWidth: real, words: seq<string>, rest: string, tail: seq<Line>)
    requires width("") <= maxWidth && EndsAWord(rest, words)
    requires Chained(width, maxWidth, words, tail) && Begins(width, maxWidth, tail[0], Chop(width, maxWidth, rest).1)
    ensures var lines := Chop(width, maxWidth, rest).0 + tail;
            Chained(width, maxWidth, words, lines) && Begins(width, maxWidth, lines[0], rest)
    decreases |rest|
  {
    var r := Chop(width, maxWidth, rest);
    if width(rest) <= maxWidth {
      assert r.0 + tail == tail;
    } else {
      var cut := CutFrom(width, maxWidth, rest, |rest|);
      var left, l := rest[cut..], Line(rest[..cut], Chopped(rest));
      SuffixEndsAWord(rest, words, cut);
      ChopChained(width, maxWidth, words, left, tail);
      ChainCons(width, maxWidth, words, l, Chop(width, maxWidth, left).0 + tail);
      assert r.0 + tail == [l] + (Chop(width, maxWidth, left).0 + tail);
    }
  }

  lemma SuffixEndsAWord(rest: string, words: seq<string>, cut: nat)
    requires EndsAWord(rest, words) && cut <= |rest|
    ensures EndsAWord(rest[cut..], words)
  {
    var k, n :| 0 <= k < |words| && 0 <= n <= |words[k]| && rest == words[k][n..];
    assert rest[cut..] == words[k][n + cut..];
  }

  lemma WholeEndsAWord(word: string, words: seq<string>)
    requires word in words
    ensures EndsAWord(word, words)
  {
    var k :| 0 <= k < |words| && words[k] == word;
    assert word == words[k][0..];
  }

  lemma {:induction false} LayoutChained(width: Width, maxWidth: real, whole: seq<string>, words: seq<string>, line: string)
    requires width("") <= maxWidth && WordsOf(words, whole)
    ensures var lines := Layout(width, maxWidth, words, line);
            Chained(width, maxWidth, whole, lines) && (line == "" || Words(lines[0].text)[0] == Words(line)[0])
    decreases |words|
  {
    if words != [] {
      var word := words[0];
      assert word in whole && ' ' !in word;
      if width(Candidate(line, word)) <= maxWidth {
        LayoutChained(width, maxWidth, whole, words[1..], Candidate(line, word));
        FirstWordStays(line, word);
      } else {
        LayoutChained(width, maxWidth, whole, words[1..], Chop(width, maxWidth, word).1);
        BreakChained(width, maxWidth, whole, word, line, Layout(width, maxWidth, words[1..], Chop(width, maxWidth, word).1));
      }
    }
  }

  lemma BreakChained(width: Width, maxWidth: real, whole: seq<string>, word: string, line: string, tail: seq<Line>)
    requires width("") <= maxWidth && word in whole && ' ' !in word && Chained(width, maxWidth, whole, tail)
    requires var left := Chop(width, maxWidth, word).1; left == "" || Words(tail[0].text)[0] == Words(left)[0]
    ensures var lines := Flushed(line, word) + Chop(width, maxWidth, word).0 + tail;
            Chained(width, maxWidth, whole, lines) && (line == "" || lines[0].text == line)
  {
    var r := Chop(width, maxWidth, word);
    LeftBegins(width, maxWidth, word, tail[0]);
    WholeEndsAWord(word, whole);
    ChopChained(width, maxWidth, whole, word, tail);
    FlushChained(width, maxWidth, whole, word, line, r.0 + tail);
    assert Flushed(line, word) + r.0 + tail == Flushed(line, word) + (r.0 + tail);
  }

  lemma LeftBegins(width: Width, maxWidth: real, word: string, next: Line)
    requires width("") <= maxWidth && ' ' !in word
    requires var left := Chop(width, maxWidth, word).1; left == "" || Words(next.text)[0] == Words(left)[0]
    ensures Begins(width, maxWidth, next, Chop(width, maxWidth, word).1)
  {
    var r := Chop(width, maxWidth, word);
    ChopKeeps(width, maxWidth, word);
    ChopOk(width, maxWidth, word);
    assert forall c | c in r.1 :: c in Concat(Texts(r.0)) + r.1;
    SpacelessIsOneWord(r.1);
  }

  lemma FlushChained(width: Width, maxWidth: real, whole: seq<string>, word: string, line: string, lines: seq<Line>)
    requires Chained(width, maxWidth, whole, lines) && word in whole && Begins(width, maxWidth, lines[0], word)
    ensures Chained(width, maxWidth, whole, Flushed(line, word) + lines)
  {
    if line != "" {
      ChainCons(width, maxWidth, whole, Line(line, BeforeWord(word)), lines);
    } else {
      assert [] + lines == lines;
    }
  }

  lemma EveryBreakIsForced(width: Width, maxWidth: real, paragraph: string)
    requires width("") <= maxWidth
    ensures var lines := Layout(width, maxWidth, Words(paragraph), "");
            LinesOk(width, maxWidth, lines) && Chained(width, maxWidth, Words(paragraph), lines)
  {
    LayoutOk(width, maxWidth, Words(paragraph), "");
    WordsHaveNoSpace(paragraph);
    LayoutChained(width, maxWidth, Words(paragraph), Words(paragraph), "");
  }

  /** The lines of a text can be given endings that are forced and tell the truth. */
  ghost predicate Forced(width: Width, maxWidth: real, words: seq<string>, texts: seq<string>) {
    exists lines: seq<Line> :: Texts(lines) == texts && LinesOk(width, maxWidth, lines) && Chained(width, maxWidth, words, lines)
  }

  /** Where every word fits on a line, no line could have taken the first word of the next one. */
  lemma NoNeedlessBreak(width: Width, maxWidth: real, words: seq<string>, texts: seq<string>, i: nat)
    requires Monotone(width) && GoodWords(width, maxWidth, words) && Forced(width, maxWidth, words, texts) && i + 1 < |texts|
    ensures width(texts[i] + " " + Words(texts[i + 1])[0]) > maxWidth
  {
    var lines: seq<Line> :| Texts(lines) == texts && LinesOk(width, maxWidth, lines) && Chained(width, maxWidth, words, lines);
    assert texts[i] == lines[i].text && texts[i + 1] == lines[i + 1].text;
    assert LineOk(width, maxWidth, lines[i]);
    assert GoesOn(width, maxWidth, words, lines[i], lines[i + 1]);
    if lines[i].ending.Chopped? {
      PartsFit(width, maxWidth, words, lines[i].ending.rest);
    }
  }

  lemma PartsFit(width: Width, maxWidth: real, words: seq<string>, rest: string)
    requires Monotone(width) && GoodWords(width, maxWidth, words) && EndsAWord(rest, words)
    ensures width(rest) <= maxWidth
  {
    var k, n :| 0 <= k < |words| && 0 <= n <= |words[k]| && rest == words[k][n..];
    assert words[k] == words[k][..n] + rest + "";
    assert width(rest) <= width(words[k]);
  }

  // ---------------------------------------------------------------- nothing is lost

  function Unspaced(s: string): string {
    if s == "" then "" else (if s[0] == ' ' then "" else [s[0]]) + Unspaced(s[1..])
  }

  function Concat(parts: seq<string>): string {
    if parts == [] then "" else parts[0] + Concat(parts[1..])
  }

  lemma {:induction false} UnspacedJoins(s: string, t: string)
    ensures Unspaced(s + t) == Unspaced(s) + Unspaced(t)
  {
    if s == "" {
      assert s + t == t;
    } else {
      assert (s + t)[1..] == s[1..] + t;
      UnspacedJoins(s[1..], t);
    }
  }

  lemma {:induction false} ConcatJoins(a: seq<string>, b: seq<string>)
    ensures Concat(a + b) == Concat(a) + Concat(b)
  {
    if a == [] {
      assert a + b == b;
    } else {
      assert (a + b)[1..] == a[1..] + b;
      ConcatJoins(a[1..], b);
    }
  }

  lemma {:induction false} WordsKeep(s: string)
    ensures Unspaced(Concat(Words(s))) == Unspaced(s)
  {
    if s != "" {
      var rest := SplitAt(s[1..], ' ');
      WordsKeep(s[1..]);
      if s[0] == ' ' {
        assert ([""] + rest)[1..] == rest;
        assert "" + Concat(rest) == Concat(rest);
      } else {
        assert ([[s[0]] + rest[0]] + rest[1..])[1..] == rest[1..];
        assert Concat(Words(s)) == [s[0]] + Concat(rest);
        assert ([s[0]] + Concat(rest))[1..] == Concat(rest);
      }
    }
  }

  lemma ConcatCons(t: string, ts: seq<string>)
    ensures Concat([t] + ts) == t + Concat(ts)
  {
    assert ([t] + ts)[1..] == ts;
  }

  lemma TextsJoin(a: seq<Line>, b: seq<Line>)
    ensures Texts(a + b) == Texts(a) + Texts(b)
  {
  }

  lemma {:induction false} ChopKeeps(width: Width, maxWidth: real, rest: string)
    requires width("") <= maxWidth
    ensures var r := Chop(width, maxWidth, rest); Concat(Texts(r.0)) + r.1 == rest
    decreases |rest|
  {
    if width(rest) > maxWidth {
      var cut := CutFrom(width, maxWidth, rest, |rest|);
      var r := Chop(width, maxWidth, rest[cut..]);
      ChopKeeps(width, maxWidth, rest[cut..]);
      Prepended(Line(rest[..cut], Chopped(rest)), r.0, r.1, rest, cut);
    }
  }

  lemma Prepended(l: Line, lines: seq<Line>, left: string, rest: string, cut: nat)
    requires cut <= |rest| && l.text == rest[..cut] && Concat(Texts(lines)) + left == rest[cut..]
    ensures Concat(Texts([l] + lines)) + left == rest
  {
    TextsJoin([l], lines);
    assert Texts([l]) == [l.text];
    ConcatCons(l.text, Texts(lines));
    assert l.text + Concat(Texts(lines)) + left == l.text + (Concat(Texts(lines)) + left);
  }

  /** The visible characters of some lines. */
  function Visible(lines: seq<Line>): string {
    Unspaced(Concat(Texts(lines)))
  }

  lemma VisibleJoins(a: seq<Line>, b: seq<Line>)
    ensures Visible(a + b) == Visible(a) + Visible(b)
  {
    TextsJoin(a, b);
    ConcatJoins(Texts(a), Texts(b));
    UnspacedJoins(Concat(Texts(a)), Concat(Texts(b)));
  }

  lemma VisibleOne(l: Line)
    ensures Visible([l]) == Unspaced(l.text)
  {
    assert Texts([l]) == [l.text] + [];
    ConcatCons(l.text, []);
    assert l.text + "" == l.text;
  }

  lemma CandidateKeeps(line: string, word: string)
    ensures Unspaced(Candidate(line, word)) == Unspaced(line) + Unspaced(word)
  {
    if line != "" {
      UnspacedJoins(line + " ", word);
      UnspacedJoins(line, " ");
      assert " "[1..] == "";
    }
  }

  lemma ChopVisible(width: Width, maxWidth: real, word: string)
    requires width("") <= maxWidth
    ensures var r := Chop(width, maxWidth, word); Visible(r.0) + Unspaced(r.1) == Unspaced(word)
  {
    var r := Chop(width, maxWidth, word);
    ChopKeeps(width, maxWidth, word);
    UnspacedJoins(Concat(Texts(r.0)), r.1);
  }

  lemma FlushedVisible(line: string, word: string)
    ensures Visible(Flushed(line, word)) == Unspaced(line)
  {
    if line != "" { VisibleOne(Line(line, BeforeWord(word))); }
  }

  lemma AssocText(a: string, b: string, c: string, d: string)
    ensures (a + b) + (c + d) == a + ((b + c) + d)
  {
  }

  /** A finished line, the chopped part of a word, and the lines that follow. */
  lemma PiecesVisible(line: string, word: string, chopped: seq<Line>, left: string, tail: seq<Line>, more: string)
    requires Visible(chopped) + Unspaced(left) == Unspaced(word) && Visible(tail) == Unspaced(left) + more
    ensures Visible(Flushed(line, word) + chopped + tail) == Unspaced(line) + (Unspaced(word) + more)
  {
    FlushedVisible(line, word);
    VisibleJoins(Flushed(line, word), chopped);
    VisibleJoins(Flushed(line, word) + chopped, tail);
    AssocText(Unspaced(line), Visible(chopped), Unspaced(left), more);
  }

  lemma {:induction false} LayoutKeeps(width: Width, maxWidth: real, words: seq<string>, line: string)
    requires width("") <= maxWidth
    ensures Visible(Layout(width, maxWidth, words, line)) == Unspaced(line) + Unspaced(Concat(words))
    decreases |words|
  {
    if words == [] {
      VisibleOne(Line(line, AtEnd));
    } else {
      UnspacedJoins(words[0], Concat(words[1..]));
      if width(Candidate(line, words[0])) <= maxWidth {
        LayoutKeeps(width, maxWidth, words[1..], Candidate(line, words[0]));
        CandidateKeeps(line, words[0]);
      } else {
        LayoutKeeps(width, maxWidth, words[1..], Chop(width, maxWidth, words[0]).1);
        BreakKeeps(width, maxWidth, words, line);
      }
    }
  }

  lemma BreakKeeps(width: Width, maxWidth: real, words: seq<string>, line: string)
    requires width("") <= maxWidth && words != [] && width(Candidate(line, words[0])) > maxWidth
    requires var left := Chop(width, maxWidth, words[0]).1;
             Visible(Layout(width, maxWidth, words[1..], left)) == Unspaced(left) + Unspaced(Concat(words[1..]))
    ensures Visible(Layout(width, maxWidth, words, line)) == Unspaced(line) + (Unspaced(words[0]) + Unspaced(Concat(words[1..])))
  {
    var r := Chop(width, maxWidth, words[0]);
    ChopVisible(width, maxWidth, words[0]);
    PiecesVisible(line, words[0], r.0, r.1, Layout(width, maxWidth, words[1..], r.1), Unspaced(Concat(words[1..])));
  }

  /** The lines hold all characters of the paragraph that are not spaces, in order. */
  lemma ParagraphIsKept(width: Width, maxWidth: real, paragraph: string)
    requires width("") <= maxWidth
    ensures Unspaced(Concat(WrapParagraph(width, maxWidth, paragraph))) == Unspaced(paragraph)
  {
    LayoutKeeps(width, maxWidth, Words(paragraph), "");
    WordsKeep(paragraph);
  }

  // ---------------------------------------------------------------- the fewest lines

  /** A part of a text is never wider than the text. */
  ghost predicate Monotone(width: Width) {
    forall a, b, c {:trigger width(b), width(a + b + c)} :: width(b) <= width(a + b + c)
  }

  function Flat(groups: seq<seq<string>>): seq<string> {
    if groups == [] then [] else groups[0] + Flat(groups[1..])
  }

  /** Some way to put the words on lines, breaking only between words. */
  ghost predicate Fits(width: Width, maxWidth: real, groups: seq<seq<string>>) {
    forall i | 0 <= i < |groups| :: groups[i] != [] && width(JoinWords(groups[i])) <= maxWidth
  }

  lemma {:induction false} JoinParts(a: seq<string>, b: seq<string>) returns (before: string)
    requires b != []
    ensures JoinWords(a + b) == before + JoinWords(b)
    decreases |b|
  {
    if |b| == 1 {
      assert (a + b)[..|a|] == a;
      before := if a == [] then "" else JoinWords(a) + " ";
      if a == [] {
        assert a + b == b;
        assert "" + JoinWords(b) == JoinWords(b);
      }
    } else {
      var front := b[..|b| - 1];
      before := JoinParts(a, front);
      assert (a + b)[..|a + b| - 1] == a + front;
      assert before + (JoinWords(front) + " " + b[|b| - 1]) == before + JoinWords(front) + " " + b[|b| - 1];
    }
  }

  lemma {:induction false} JoinStart(a: seq<string>, b: seq<string>) returns (after: string)
    requires a != []
    ensures JoinWords(a + b) == JoinWords(a) + after
    decreases |b|
  {
    if b == [] {
      assert a + b == a;
      after := "";
    } else {
      var front := b[..|b| - 1];
      var more := JoinStart(a, front);
      assert (a + b)[..|a + b| - 1] == a + front;
      after := more + " " + b[|b| - 1];
      assert JoinWords(a) + (more + " " + b[|b| - 1]) == JoinWords(a) + more + " " + b[|b| - 1];
    }
  }

  /** A line that holds these words among others is at least as wide as a line of these words. */
  lemma MoreWordsAreWider(width: Width, a: seq<string>, b: seq<string>, c: seq<string>)
    requires Monotone(width) && b != []
    ensures width(JoinWords(b)) <= width(JoinWords(a + b + c))
  {
    var before := JoinParts(a, b);
    var after := JoinStart(a + b, c);
    assert JoinWords(a + b + c) == before + JoinWords(b) + after;
  }

  lemma JoinMore(cur: seq<string>, word: string)
    requires cur != [] && JoinWords(cur) != ""
    ensures JoinWords(cur + [word]) == Candidate(JoinWords(cur), word)
  {
    assert (cur + [word])[..|cur|] == cur;
  }

  ghost predicate GoodWords(width: Width, maxWidth: real, words: seq<string>) {
    forall i | 0 <= i < |words| :: words[i] != "" && width(words[i]) <= maxWidth
  }

  lemma JoinNotEmpty(cur: seq<string>)
    requires cur != [] && forall i | 0 <= i < |cur| :: cur[i] != ""
    ensures JoinWords(cur) != ""
  {
  }

  lemma FlatFirst(groups: seq<seq<string>>, words: seq<string>)
    requires groups != [] && Flat(groups) == words
    ensures groups[0] <= words && Flat(groups[1..]) == words[|groups[0]|..]
  {
  }

  /** While the layout's current line starts no later than the other one's, it never falls behind. */
  lemma {:induction false} GreedyKeepsUp(width: Width, maxWidth: real, pre: seq<string>, cur: seq<string>, words: seq<string>,
                                         groups: seq<seq<string>>)
    requires Monotone(width) && width("") <= maxWidth && GoodWords(width, maxWidth, cur) && GoodWords(width, maxWidth, words)
    requires cur != [] && Fits(width, maxWidth, groups) && Flat(groups) == pre + cur + words
    ensures |Layout(width, maxWidth, words, JoinWords(cur))| <= |groups|
    decreases |words|
  {
    JoinNotEmpty(cur);
    if words == [] {
      assert groups != [];
    } else {
      var word := words[0];
      JoinMore(cur, word);
      assert words == [word] + words[1..];
      if width(Candidate(JoinWords(cur), word)) <= maxWidth {
        assert pre + (cur + [word]) + words[1..] == pre + cur + words;
        GreedyKeepsUp(width, maxWidth, pre, cur + [word], words[1..], groups);
      } else {
        FirstEndsBefore(width, maxWidth, pre, cur, words, groups);
        var left := (pre + cur)[|groups[0]|..];
        assert JoinWords([word]) == word;
        GreedyKeepsUp(width, maxWidth, left, [word], words[1..], groups[1..]);
      }
    }
  }

  /** If the next word does not fit after the current words, the other layout's line ends before it too. */
  lemma FirstEndsBefore(width: Width, maxWidth: real, pre: seq<string>, cur: seq<string>, words: seq<string>, groups: seq<seq<string>>)
    requires Monotone(width) && cur != [] && words != [] && Fits(width, maxWidth, groups) && Flat(groups) == pre + cur + words
    requires width(JoinWords(cur + [words[0]])) > maxWidth
    ensures groups != [] && |groups[0]| <= |pre + cur|
    ensures Fits(width, maxWidth, groups[1..])
    ensures Flat(groups[1..]) == (pre + cur)[|groups[0]|..] + [words[0]] + words[1..]
  {
    var all := pre + cur + words;
    FlatFirst(groups, all);
    var g := groups[0];
    if |g| > |pre + cur| {
      var c := g[|pre + cur| + 1..];
      assert g == pre + (cur + [words[0]]) + c;
      MoreWordsAreWider(width, pre, cur + [words[0]], c);
    }
    assert all[|g|..] == (pre + cur)[|g|..] + [words[0]] + words[1..];
    forall i | 0 <= i < |groups[1..]| ensures groups[1..][i] != [] && width(JoinWords(groups[1..][i])) <= maxWidth {
      assert groups[1..][i] == groups[i + 1];
    }
  }

  /** For single-spaced text whose words all fit, no other way of breaking between words uses fewer lines. */
  lemma FewestLines(width: Width, maxWidth: real, paragraph: string, groups: seq<seq<string>>)
    requires Monotone(width) && width("") <= maxWidth && GoodWords(width, maxWidth, Words(paragraph))
    requires Fits(width, maxWidth, groups) && Flat(groups) == Words(paragraph)
    ensures |WrapParagraph(width, maxWidth, paragraph)| <= |groups|
  {
    GreedyUsesFewest(width, maxWidth, Words(paragraph), groups);
  }

  lemma GreedyUsesFewest(width: Width, maxWidth: real, words: seq<string>, groups: seq<seq<string>>)
    requires Monotone(width) && width("") <= maxWidth && words != [] && GoodWords(width, maxWidth, words)
    requires Fits(width, maxWidth, groups) && Flat(groups) == words
    ensures |Layout(width, maxWidth, words, "")| <= |groups|
  {
    var first, rest := words[0], words[1..];
    assert words == [] + [first] + rest;
    assert JoinWords([first]) == first;
    assert GoodWords(width, maxWidth, [first]) && GoodWords(width, maxWidth, rest);
    GreedyKeepsUp(width, maxWidth, [], [first], rest, groups);
    assert Layout(width, maxWidth, words, "") == Layout(width, maxWidth, rest, first);
  }

  // ---------------------------------------------------------------- as it is written

  method WrapText(text: string, width: Width, maxWidth: real) returns (lines: seq<string>)
    requires width("") <= maxWidth
    ensures lines == WrapAll(width, maxWidth, Paragraphs(Safe(text)))
    ensures forall l | l in lines :: width(l) <= maxWidth || |l| == 1
    ensures Unspaced(Concat(lines)) == Unspaced(Safe(text))
    ensures Forced(width, maxWidth, Words(Safe(text)), lines)
  {
    LinesKeepText(text, width, maxWidth);
    lines := WrapParagraphs(Paragraphs(Safe(text)), width, maxWidth);
  }

  method WrapParagraphs(paragraphs: seq<string>, width: Width, maxWidth: real) returns (lines: seq<string>)
    requires width("") <= maxWidth
    ensures lines == WrapAll(width, maxWidth, paragraphs)
  {
    lines := [];
    var i := 0;
    while i < |paragraphs|
      invariant 0 <= i <= |paragraphs|
      invariant lines == WrapAll(width, maxWidth, paragraphs[..i])
    {
      assert paragraphs[..i + 1][..i] == paragraphs[..i];
      var more := WrapWords(Words(paragraphs[i]), width, maxWidth);
      lines := lines + more;
      i := i + 1;
    }
    assert paragraphs[..i] == paragraphs;
  }

  lemma LinesKeepText(text: string, width: Width, maxWidth: real)
    requires width("") <= maxWidth
    ensures var lines := WrapAll(width, maxWidth, Paragraphs(Safe(text)));
            (forall l | l in lines :: width(l) <= maxWidth || |l| == 1) && Unspaced(Concat(lines)) == Unspaced(Safe(text))
            && Forced(width, maxWidth, Words(Safe(text)), lines)
  {
    SafeTextIsOneParagraph(text, width, maxWidth);
    ParagraphIsKept(width, maxWidth, Safe(text));
    EveryBreakIsForced(width, maxWidth, Safe(text));
    var lines := Layout(width, maxWidth, Words(Safe(text)), "");
    forall l | l in Texts(lines) ensures width(l) <= maxWidth || |l| == 1 {
      var i :| 0 <= i < |lines| && Texts(lines)[i] == l;
      assert LineOk(width, maxWidth, lines[i]);
    }
  }

  method WrapWords(words: seq<string>, width: Width, maxWidth: real) returns (lines: seq<string>)
    requires width("") <= maxWidth
    ensures lines == Texts(Layout(width, maxWidth, words, ""))
  {
    lines := [];
    var line := "";
    var i := 0;
    assert words[0..] == words;
    while i < |words|
      invariant 0 <= i <= |words|
      invariant Continues(width, maxWidth, words, i, line, lines)
    {
      var word := words[i];
      var candidate := if line != "" then line + " " + word else word;
      if width(candidate) <= maxWidth {
        TakesWord(width, maxWidth, words, i, line, lines);
        line := candidate;
      } else {
        ghost var before, started := lines, line;
        if line != "" { lines := lines + [line]; }
        lines, line := ChopWord(word, width, maxWidth, lines);
        BreaksLine(width, maxWidth, words, i, started, before, lines);
      }
      i := i + 1;
    }
    LastLine(width, maxWidth, words, line, lines);
    lines := lines + [line];
  }

  /** The finished lines, followed by what the layout makes of the current line and the words from `i` on, are the whole. */
  ghost predicate Continues(width: Width, maxWidth: real, words: seq<string>, i: nat, line: string, lines: seq<string>)
    requires width("") <= maxWidth && i <= |words|
  {
    lines + Texts(Layout(width, maxWidth, words[i..], line)) == Texts(Layout(width, maxWidth, words, ""))
  }

  lemma TakesWord(width: Width, maxWidth: real, words: seq<string>, i: nat, line: string, lines: seq<string>)
    requires width("") <= maxWidth && i < |words| && width(Candidate(line, words[i])) <= maxWidth
    requires Continues(width, maxWidth, words, i, line, lines)
    ensures Continues(width, maxWidth, words, i + 1, Candidate(line, words[i]), lines)
  {
    LayoutStep(width, maxWidth, words, i, line);
  }

  lemma BreaksLine(width: Width, maxWidth: real, words: seq<string>, i: nat, line: string, lines: seq<string>, lines': seq<string>)
    requires width("") <= maxWidth && i < |words| && width(Candidate(line, words[i])) > maxWidth
    requires Continues(width, maxWidth, words, i, line, lines)
    requires lines' == (if line == "" then lines else lines + [line]) + Texts(Chop(width, maxWidth, words[i]).0)
    ensures Continues(width, maxWidth, words, i + 1, Chop(width, maxWidth, words[i]).1, lines')
  {
    LayoutStep(width, maxWidth, words, i, line);
    Regroup(lines, if line == "" then [] else [line], Texts(Chop(width, maxWidth, words[i]).0),
            Texts(Layout(width, maxWidth, words[i + 1..], Chop(width, maxWidth, words[i]).1)));
    assert lines + [] == lines;
  }

  lemma Regroup(a: seq<string>, b: seq<string>, c: seq<string>, d: seq<string>)
    ensures a + (b + c + d) == (a + b) + c + d
  {
  }

  lemma LastLine(width: Width, maxWidth: real, words: seq<string>, line: string, lines: seq<string>)
    requires width("") <= maxWidth && Continues(width, maxWidth, words, |words|, line, lines)
    ensures lines + [line] == Texts(Layout(width, maxWidth, words, ""))
  {
    assert words[|words|..] == [];
    assert Texts([Line(line, AtEnd)]) == [line];
  }

  lemma LayoutStep(width: Width, maxWidth: real, words: seq<string>, i: nat, line: string)
    requires width("") <= maxWidth && i < |words|
    ensures var word := words[i]; var r := Chop(width, maxWidth, word);
            Texts(Layout(width, maxWidth, words[i..], line))
            == if width(Candidate(line, word)) <= maxWidth then Texts(Layout(width, maxWidth, words[i + 1..], Candidate(line, word)))
               else (if line == "" then [] else [line]) + Texts(r.0) + Texts(Layout(width, maxWidth, words[i + 1..], r.1))
  {
    var word := words[i];
    assert words[i..][1..] == words[i + 1..];
    if !(width(Candidate(line, word)) <= maxWidth) {
      var r := Chop(width, maxWidth, word);
      TextsJoin(Flushed(line, word), r.0);
      TextsJoin(Flushed(line, word) + r.0, Layout(width, maxWidth, words[i + 1..], r.1));
    }
  }

  method ChopWord(word: string, width: Width, maxWidth: real, before: seq<string>) returns (lines: seq<string>, rest: string)
    requires width("") <= maxWidth
    ensures lines == before + Texts(Chop(width, maxWidth, word).0) && rest == Chop(width, maxWidth, word).1
    ensures before <= lines && Concat(lines[|before|..]) + rest == word && width(rest) <= maxWidth
  {
    ChopKeeps(width, maxWidth, word);
    ChopOk(width, maxWidth, word);
    lines, rest := before, word;
    while width(rest) > maxWidth
      invariant lines + Texts(Chop(width, maxWidth, rest).0) == before + Texts(Chop(width, maxWidth, word).0)
      invariant Chop(width, maxWidth, rest).1 == Chop(width, maxWidth, word).1
      decreases |rest|
    {
      var cut := |rest|;
      while cut > 1 && width(rest[..cut]) > maxWidth
        invariant 1 <= cut <= |rest|
        invariant CutFrom(width, maxWidth, rest, cut) == CutFrom(width, maxWidth, rest, |rest|)
      {
        cut := cut - 1;
      }
      TextsJoin([Line(rest[..cut], Chopped(rest))], Chop(width, maxWidth, rest[cut..]).0);
      lines := lines + [rest[..cut]];
      rest := rest[cut..];
    }
  }

  /** Safe text has no line feed, so the whole text is one paragraph. */
  lemma {:induction false} NoSeparator(s: string, separator: char)
    requires forall i | 0 <= i < |s| :: s[i] != separator
    ensures SplitAt(s, separator) == [s]
  {
    if s != "" {
      NoSeparator(s[1..], separator);
      assert [s[0]] + s[1..] == s;
    }
  }

  lemma {:induction false} SplitFirst(a: string, b: string, separator: char)
    requires forall i | 0 <= i < |a| :: a[i] != separator
    ensures SplitAt(a + [separator] + b, separator) == [a] + SplitAt(b, separator)
  {
    var s := a + [separator] + b;
    if a == "" {
      assert s[1..] == b;
    } else {
      SplitFirst(a[1..], b, separator);
      assert s[1..] == a[1..] + [separator] + b;
      assert [s[0]] + a[1..] == a;
    }
  }

  /** The first line break ends the first paragraph, a carriage return right before it belonging to the break; a text
      without one is one paragraph, whatever carriage returns it holds. */
  lemma ParagraphsSplit(a: string, b: string)
    requires forall i | 0 <= i < |a| :: a[i] != '\n'
    ensures Paragraphs(a) == [a]
    ensures Paragraphs(a + "\n" + b) == [if a != "" && a[|a| - 1] == '\r' then a[..|a| - 1] else a] + Paragraphs(b)
  {
    NoSeparator(a, '\n');
    SplitFirst(a, b, '\n');
    assert a + "\n" + b == a + ['\n'] + b;
  }

  lemma SafeTextIsOneParagraph(text: string, width: Width, maxWidth: real)
    requires width("") <= maxWidth
    ensures Paragraphs(Safe(text)) == [Safe(text)]
    ensures WrapAll(width, maxWidth, Paragraphs(Safe(text))) == WrapParagraph(width, maxWidth, Safe(text))
  {
    NoSeparator(Safe(text), '\n');
    assert [Safe(text)][..0] == [];
    assert [] + WrapParagraph(width, maxWidth, Safe(text)) == WrapParagraph(width, maxWidth, Safe(text));
  }
}
