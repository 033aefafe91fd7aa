/** The order of object keys is the default order of JavaScript strings: by UTF-16 code units
    (sections 7.2.13 and 23.1.3.30 of ECMA-262; surrogate pairs, section 3.9 of the Unicode Standard). */
module KeyOrder {
  import opened Json

  /** The code units of one character. */
  function Units(c: char): (us: seq<int>)
    ensures 1 <= |us| <= 2
  {
    var n := c as int;
    if n < 0x10000 then [n] else [0xD800 + (n - 0x10000) / 0x400, 0xDC00 + (n - 0x10000) % 0x400]
  }

  function UnitsOf(s: string): seq<int> {
    if s == "" then [] else Units(s[0]) + UnitsOf(s[1..])
  }

  /** Lexicographic order: the first difference decides, and a proper prefix comes first. */
  ghost predicate Less(u: seq<int>, v: seq<int>) {
    exists k: nat :: k <= |u| && k < |v| && u[..k] == v[..k] && (k == |u| || u[k] < v[k])
  }

  lemma LessFront(p: seq<int>, u: seq<int>, v: seq<int>)
    ensures Less(p + u, p + v) <==> Less(u, v)
  {
    var n := |p|;
    if Less(u, v) {
      var k: nat :| k <= |u| && k < |v| && u[..k] == v[..k] && (k == |u| || u[k] < v[k]);
      assert (p + u)[..n + k] == p + u[..k] && (p + v)[..n + k] == p + v[..k];
    }
    if Less(p + u, p + v) {
      var k: nat :| k <= |p + u| && k < |p + v| && (p + u)[..k] == (p + v)[..k] && (k == |p + u| || (p + u)[k] < (p + v)[k]);
      assert k >= n;
      assert u[..k - n] == (p + u)[..k][n..] && v[..k - n] == (p + v)[..k][n..];
    }
  }

  /** The code units of two different characters differ, and at a place that both have. */
  lemma FirstUnits(c: char, d: char)
    requires c != d
    ensures var u, v := Units(c), Units(d);
            (u[0] != v[0] && (u[0] < v[0] <==> Weight(c) < Weight(d)))
            || (u[0] == v[0] && |u| == 2 && |v| == 2 && u[1] != v[1] && (u[1] < v[1] <==> Weight(c) < Weight(d)))
  {
  }

  lemma DifferentFirst(u: seq<int>, v: seq<int>)
    requires u != [] && v != [] && u[0] != v[0]
    ensures Less(u, v) <==> u[0] < v[0]
  {
    if u[0] < v[0] {
      assert u[..0] == v[..0];
    }
    if k: nat :| k <= |u| && k < |v| && u[..k] == v[..k] && (k == |u| || u[k] < v[k]) {
      if k > 0 {
        assert u[..k][0] == v[..k][0];
      }
    }
  }

  lemma DifferentSecond(u: seq<int>, v: seq<int>)
    requires |u| >= 2 && |v| >= 2 && u[0] == v[0] && u[1] != v[1]
    ensures Less(u, v) <==> u[1] < v[1]
  {
    DifferentFirst(u[1..], v[1..]);
    assert u == [u[0]] + u[1..] && v == [v[0]] + v[1..];
    LessFront([u[0]], u[1..], v[1..]);
  }

  /** Keys are in order exactly if their code units are. */
  lemma {:induction false} BeforeIsUnitOrder(a: string, b: string)
    ensures Before(a, b) <==> Less(UnitsOf(a), UnitsOf(b))
    decreases |a|
  {
    var u, v := UnitsOf(a), UnitsOf(b);
    if a == "" || b == "" {
      assert b != "" ==> u[..0] == v[..0];
    } else if a[0] == b[0] {
      BeforeIsUnitOrder(a[1..], b[1..]);
      LessFront(Units(a[0]), UnitsOf(a[1..]), UnitsOf(b[1..]));
    } else {
      FirstUnits(a[0], b[0]);
      if u[0] != v[0] {
        DifferentFirst(u, v);
      } else {
        DifferentSecond(u, v);
      }
    }
  }

  /** Quotes, backslashes and control characters are escaped, and nothing else; five control characters have a letter
      of their own, the rest four hexadecimal digits in lower case. */
  lemma EscapesExactly(c: char)
    ensures Escape(c) == [c] <==> c >= ' ' && c != '\"' && c != '\\'
    ensures |Escape(c)| == 2 <==> c in "\"\\\n\r\t" || c as int == 8 || c as int == 12
    ensures c < ' ' && |Escape(c)| != 2 ==>
              && |Escape(c)| == 6 && Escape(c)[..4] == "\\u00"
              && Escape(c)[4] in "01" && (Escape(c)[5] in "0123456789abcdef")
    ensures Escape(c) != [c] ==> Escape(c)[0] == '\\'
  {
  }
}
