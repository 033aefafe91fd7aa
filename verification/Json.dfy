/** JavaScript data and its compact JSON text (section 7 of RFC 8259 for strings), with a parser for that text. */
module Json {
  import opened Basics

  /** Values that audit metadata can hold. A number is the text JavaScript gives it; an object is the list of
      its own properties in insertion order. */
  datatype Js =
    | Undefined | Null | Bool(b: bool) | Num(token: string) | NotFinite | BigInt(digits: string) | Date(iso: string)
    | Str(text: string) | Arr(items: seq<Js>) | Obj(entries: seq<Member>)

  datatype Member = Member(key: string, value: Js)

  // ---------------------------------------------------------------- key order

  /** Position of a character in the order of UTF-16 code units: surrogate pairs sort between U+D7FF and U+E000. */
  function Weight(c: char): int {
    var n := c as int;
    if n < 0xD800 then n else if n < 0x10000 then n + 0x100000 else n - 0x10000 + 0xD800
  }

  /** The default order of `sort` on strings. */
  predicate Before(a: string, b: string) {
    if b == "" then false
    else if a == "" then true
    else if a[0] == b[0] then Before(a[1..], b[1..])
    else Weight(a[0]) < Weight(b[0])
  }

  lemma {:induction false} BeforeIsTotal(a: string, b: string)
    ensures Before(a, b) || a == b || Before(b, a)
    ensures !(Before(a, b) && Before(b, a)) && !Before(a, a)
  {
    if a != "" && b != "" && a[0] == b[0] {
      BeforeIsTotal(a[1..], b[1..]);
      assert a == [a[0]] + a[1..] && b == [b[0]] + b[1..];
    }
    if a != "" {
      BeforeIsTotal(a[1..], a[1..]);
    }
  }

  lemma {:induction false} BeforeIsTransitive(a: string, b: string, c: string)
    requires Before(a, b) && Before(b, c)
    ensures Before(a, c)
  {
    if a != "" && a[0] == b[0] == c[0] {
      BeforeIsTransitive(a[1..], b[1..], c[1..]);
    }
  }

  predicate SortedKeys(entries: seq<Member>) {
    forall i, j | 0 <= i < j < |entries| :: Before(entries[i].key, entries[j].key)
  }

  predicate DistinctKeys(entries: seq<Member>) {
    forall i, j | 0 <= i < j < |entries| :: entries[i].key != entries[j].key
  }

  // ---------------------------------------------------------------- canonical data

  predicate NumberChar(c: char) {
    '0' <= c <= '9' || c in "+-.eE"
  }

  predicate NumberToken(t: string) {
    t != "" && ('0' <= t[0] <= '9' || t[0] == '-') && forall c | c in t :: NumberChar(c)
  }

  /** Plain JSON data with every object's keys in order. */
  predicate Canonical(v: Js) {
    match v
    case Null => true
    case Bool(_) => true
    case Num(t) => NumberToken(t)
    case Str(_) => true
    case Arr(items) => forall i | 0 <= i < |items| :: Canonical(items[i])
    case Obj(entries) => SortedKeys(entries) && forall i | 0 <= i < |entries| :: Canonical(entries[i].value)
    case _ => false
  }

  // ---------------------------------------------------------------- printing

  function HexDigit(n: int): char
    requires 0 <= n < 16
  {
    "0123456789abcdef"[n]
  }

  function Escape(c: char): string {
    if c == '\"' then "\\\""
    else if c == '\\' then "\\\\"
    else if c == '\n' then "\\n"
    else if c == '\r' then "\\r"
    else if c == '\t' then "\\t"
    else if c as int == 8 then "\\b"
    else if c as int == 12 then "\\f"
    else if c < ' ' then "\\u00" + [HexDigit(c as int / 16), HexDigit(c as int % 16)]
    else [c]
  }

  function PrintChars(s: string): string {
    if s == "" then "\"" else Escape(s[0]) + PrintChars(s[1..])
  }

  function PrintString(s: string): string {
    "\"" + PrintChars(s)
  }

  function Print(v: Js): string
    requires Canonical(v)
    decreases v, 1
  {
    match v
    case Null => "null"
    case Bool(b) => if b then "true" else "false"
    case Num(t) => t
    case Str(s) => PrintString(s)
    case Arr(items) => if items == [] then "[]" else "[" + PrintItems(items)
    case Obj(entries) => if entries == [] then "{}" else "{" + PrintMembers(entries)
  }

  function PrintItems(items: seq<Js>): string
    requires items != [] && forall i | 0 <= i < |items| :: Canonical(items[i])
    decreases items, 0
  {
    Print(items[0]) + if |items| == 1 then "]" else "," + PrintItems(items[1..])
  }

  function PrintMembers(entries: seq<Member>): string
    requires entries != [] && forall i | 0 <= i < |entries| :: Canonical(entries[i].value)
    decreases entries, 0
  {
    PrintString(entries[0].key) + (":" + (Print(entries[0].value) + if |entries| == 1 then "}" else "," + PrintMembers(entries[1..])))
  }

  // ---------------------------------------------------------------- parsing

  function HexValue(c: char): Option<int> {
    if '0' <= c <= '9' then Some(c as int - '0' as int)
    else if 'a' <= c <= 'f' then Some(c as int - 'a' as int + 10)
    else if 'A' <= c <= 'F' then Some(c as int - 'A' as int + 10)
    else None
  }

  function Unhex(s: string): (c: Option<char>)
    requires |s| == 4
  {
    var a, b, c, d := HexValue(s[0]), HexValue(s[1]), HexValue(s[2]), HexValue(s[3]);
    if a.None? || b.None? || c.None? || d.None? then None
    else
      var n := a.value * 4096 + b.value * 256 + c.value * 16 + d.value;
      if 0 <= n < 0xD800 || 0xE000 <= n < 0x10000 then Some(n as char) else None
  }

  /** One escape after the backslash: the character and how much text it took. */
  function Unescape(s: string): (r: Option<(char, nat)>)
    ensures r.Some? ==> 0 < r.value.1 <= |s|
  {
    if s == "" then None
    else if s[0] == '\"' || s[0] == '\\' || s[0] == '/' then Some((s[0], 1))
    else if s[0] == 'n' then Some(('\n', 1))
    else if s[0] == 'r' then Some(('\r', 1))
    else if s[0] == 't' then Some(('\t', 1))
    else if s[0] == 'b' then Some((8 as char, 1))
    else if s[0] == 'f' then Some((12 as char, 1))
    else if s[0] == 'u' && |s| >= 5 && Unhex(s[1..5]).Some? then Some((Unhex(s[1..5]).value, 5))
    else None
  }

  /** The rest of a string literal, up to and including its closing quote. */
  function ParseChars(s: string): (r: Option<(string, string)>)
    ensures r.Some? ==> |r.value.1| < |s|
    decreases |s|
  {
    if s == "" || s[0] < ' ' then None
    else if s[0] == '\"' then Some(("", s[1..]))
    else if s[0] != '\\' then
      var r := ParseChars(s[1..]);
      if r.None? then None else Some(([s[0]] + r.value.0, r.value.1))
    else
      var e := Unescape(s[1..]);
      if e.None? then None
      else
        var r := ParseChars(s[1 + e.value.1..]);
        if r.None? then None else Some(([e.value.0] + r.value.0, r.value.1))
  }

  function NumberRun(s: string): (n: nat)
    ensures n <= |s| && (forall i | 0 <= i < n :: NumberChar(s[i])) && (n < |s| ==> !NumberChar(s[n]))
  {
    if s == "" || !NumberChar(s[0]) then 0 else 1 + NumberRun(s[1..])
  }

  function ParseValue(s: string): (r: Option<(Js, string)>)
    ensures r.Some? ==> |r.value.1| < |s|
    decreases |s|, 1
  {
    if s == "" then None
    else if s[0] == '\"' then
      var r := ParseChars(s[1..]);
      if r.None? then None else Some((Str(r.value.0), r.value.1))
    else if "[]" <= s then Some((Arr([]), s[2..]))
    else if "{}" <= s then Some((Obj([]), s[2..]))
    else if s[0] == '[' then
      var r := ParseItems(s[1..]);
      if r.None? then None else Some((Arr(r.value.0), r.value.1))
    else if s[0] == '{' then
      var r := ParseMembers(s[1..]);
      if r.None? then None else Some((Obj(r.value.0), r.value.1))
    else if "null" <= s then Some((Null, s[4..]))
    else if "true" <= s then Some((Bool(true), s[4..]))
    else if "false" <= s then Some((Bool(false), s[5..]))
    else if NumberToken(s[..NumberRun(s)]) then Some((Num(s[..NumberRun(s)]), s[NumberRun(s)..]))
    else None
  }

  function ParseItems(s: string): (r: Option<(seq<Js>, string)>)
    ensures r.Some? ==> |r.value.1| < |s|
    decreases |s|, 2
  {
    var v := ParseValue(s);
    if v.None? || v.value.1 == "" then None
    else if v.value.1[0] == ']' then Some(([v.value.0], v.value.1[1..]))
    else if v.value.1[0] != ',' then None
    else
      var r := ParseItems(v.value.1[1..]);
      if r.None? then None else Some(([v.value.0] + r.value.0, r.value.1))
  }

  function ParseMember(s: string): (r: Option<(Member, string)>)
    ensures r.Some? ==> |r.value.1| < |s|
    decreases |s|, 2
  {
    if s == "" || s[0] != '\"' then None
    else
      var k := ParseChars(s[1..]);
      if k.None? || k.value.1 == "" || k.value.1[0] != ':' then None
      else
        var v := ParseValue(k.value.1[1..]);
        if v.None? then None else Some((Member(k.value.0, v.value.0), v.value.1))
  }

  function ParseMembers(s: string): (r: Option<(seq<Member>, string)>)
    ensures r.Some? ==> |r.value.1| < |s|
    decreases |s|, 3
  {
    var m := ParseMember(s);
    if m.None? || m.value.1 == "" then None
    else if m.value.1[0] == '}' then Some(([m.value.0], m.value.1[1..]))
    else if m.value.1[0] != ',' then None
    else
      var r := ParseMembers(m.value.1[1..]);
      if r.None? then None else Some(([m.value.0] + r.value.0, r.value.1))
  }

  // ---------------------------------------------------------------- parsing undoes printing

  lemma EscapeUndone(c: char, rest: string)
    ensures Escape(c) != ""
    ensures var s := Escape(c) + rest;
            s[0] >= ' ' && s[0] != '\"'
            && if s[0] != '\\' then s[0] == c && s[1..] == rest
               else Unescape(s[1..]).Some? && Unescape(s[1..]).value.0 == c && s[1 + Unescape(s[1..]).value.1..] == rest
  {
    var s := Escape(c) + rest;
    if s[0] == '\\' && s[1] == 'u' {
      ControlUndone(c);
      assert s[1..][1..5] == Escape(c)[2..];
    }
  }

  lemma ControlUndone(c: char)
    requires c < ' ' && |Escape(c)| == 6
    ensures Unhex(Escape(c)[2..]) == Some(c)
  {
    var a, b := c as int / 16, c as int % 16;
    assert Escape(c)[2..] == ['0', '0', HexDigit(a), HexDigit(b)];
    HexUndone(a);
    HexUndone(b);
  }

  lemma HexUndone(n: int)
    requires 0 <= n < 16
    ensures HexValue(HexDigit(n)) == Some(n)
  {
  }

  lemma {:induction false} CharsUndone(s: string, rest: string)
    ensures ParseChars(PrintChars(s) + rest) == Some((s, rest))
  {
    if s == "" {
      assert ("\"" + rest)[1..] == rest;
    } else {
      var more := PrintChars(s[1..]) + rest;
      CharsUndone(s[1..], rest);
      EscapeUndone(s[0], more);
      Assoc(Escape(s[0]), PrintChars(s[1..]), rest);
      assert s == [s[0]] + s[1..];
    }
  }

  predicate EndsValue(rest: string) {
    rest == "" || !NumberChar(rest[0])
  }

  lemma {:induction false} NumberRunStops(t: string, rest: string)
    requires (forall c | c in t :: NumberChar(c)) && EndsValue(rest)
    ensures NumberRun(t + rest) == |t|
  {
    if t == "" {
      assert t + rest == rest;
    } else {
      assert (t + rest)[1..] == t[1..] + rest;
      NumberRunStops(t[1..], rest);
    }
  }

  lemma NumberUndone(t: string, rest: string)
    requires NumberToken(t) && EndsValue(rest)
    ensures ParseValue(t + rest) == Some((Num(t), rest))
  {
    NumberRunStops(t, rest);
    assert (t + rest)[..|t|] == t && (t + rest)[|t|..] == rest;
    assert (t + rest)[0] == t[0];
  }

  lemma {:induction false} ValueUndone(v: Js, rest: string)
    requires Canonical(v) && EndsValue(rest)
    ensures ParseValue(Print(v) + rest) == Some((v, rest))
    decreases v, 1
  {
    match v
    case Num(t) => NumberUndone(t, rest);
    case Str(s) => StringUndone(s, rest);
    case Arr(items) => if items != [] { ArrayUndone(items, rest); }
    case Obj(entries) => if entries != [] { ObjectUndone(entries, rest); }
    case _ =>
  }

  lemma StringUndone(s: string, rest: string)
    ensures ParseValue(PrintString(s) + rest) == Some((Str(s), rest))
  {
    CharsUndone(s, rest);
    StringParsed(s, PrintChars(s) + rest, rest);
    Assoc("\"", PrintChars(s), rest);
  }

  lemma StringParsed(t: string, s: string, rest: string)
    requires ParseChars(s) == Some((t, rest))
    ensures ParseValue("\"" + s) == Some((Str(t), rest))
  {
    assert ("\"" + s)[1..] == s;
  }

  lemma Assoc(a: string, b: string, c: string)
    ensures (a + b) + c == a + (b + c)
  {
  }

  lemma AssocMember(a: string, b: string, c: string, d: string, rest: string)
    ensures a + (b + (c + d)) + rest == a + (b + (c + (d + rest)))
  {
  }

  lemma ArrayUndone(items: seq<Js>, rest: string)
    requires items != [] && forall i | 0 <= i < |items| :: Canonical(items[i])
    ensures ParseValue(Print(Arr(items)) + rest) == Some((Arr(items), rest))
    decreases items, 1
  {
    ItemsUndone(items, rest);
    PrintStarts(items[0]);
    assert (Print(Arr(items)) + rest)[1..] == PrintItems(items) + rest;
  }

  /** A value's text never starts with a closing bracket. */
  lemma PrintStarts(v: Js)
    requires Canonical(v)
    ensures Print(v) != "" && Print(v)[0] != ']' && Print(v)[0] != '}'
  {
  }

  lemma LastItem(v: Js, s: string, rest: string)
    requires ParseValue(s) == Some((v, "]" + rest))
    ensures ParseItems(s) == Some(([v], rest))
  {
    assert ("]" + rest)[1..] == rest;
  }

  lemma NextItem(v: Js, s: string, items: seq<Js>, more: string, rest: string)
    requires ParseValue(s) == Some((v, "," + more)) && ParseItems(more) == Some((items, rest))
    ensures ParseItems(s) == Some(([v] + items, rest))
  {
    assert ("," + more)[1..] == more;
  }

  lemma LastItemUndone(v: Js, rest: string)
    requires Canonical(v) && ParseValue(Print(v) + ("]" + rest)) == Some((v, "]" + rest))
    ensures ParseItems(PrintItems([v]) + rest) == Some(([v], rest))
  {
    Assoc(Print(v), "]", rest);
    LastItem(v, PrintItems([v]) + rest, rest);
  }

  lemma NextItemUndone(v: Js, items: seq<Js>, rest: string)
    requires items != [] && Canonical(v) && forall i | 0 <= i < |items| :: Canonical(items[i])
    requires ParseItems(PrintItems(items) + rest) == Some((items, rest))
    requires var tail := "," + (PrintItems(items) + rest); ParseValue(Print(v) + tail) == Some((v, tail))
    ensures ParseItems(PrintItems([v] + items) + rest) == Some(([v] + items, rest))
  {
    assert ([v] + items)[1..] == items;
    Assoc(Print(v), "," + PrintItems(items), rest);
    Assoc(",", PrintItems(items), rest);
    NextItem(v, PrintItems([v] + items) + rest, items, PrintItems(items) + rest, rest);
  }

  lemma {:induction false} ItemsUndone(items: seq<Js>, rest: string)
    requires items != [] && forall i | 0 <= i < |items| :: Canonical(items[i])
    ensures ParseItems(PrintItems(items) + rest) == Some((items, rest))
    decreases items, 0
  {
    var v := items[0];
    if |items| == 1 {
      ValueUndone(v, "]" + rest);
      LastItemUndone(v, rest);
      assert items == [v];
    } else {
      ValueUndone(v, "," + (PrintItems(items[1..]) + rest));
      ItemsUndone(items[1..], rest);
      NextItemUndone(v, items[1..], rest);
      assert items == [v] + items[1..];
    }
  }

  lemma ObjectUndone(entries: seq<Member>, rest: string)
    requires entries != [] && forall i | 0 <= i < |entries| :: Canonical(entries[i].value)
    ensures ParseValue("{" + PrintMembers(entries) + rest) == Some((Obj(entries), rest))
    decreases entries, 1
  {
    MembersUndone(entries, rest);
    ObjectParsed(entries, PrintMembers(entries) + rest, rest);
    assert "{" + PrintMembers(entries) + rest == "{" + (PrintMembers(entries) + rest);
  }

  lemma ObjectParsed(entries: seq<Member>, s: string, rest: string)
    requires s != "" && s[0] == '\"' && ParseMembers(s) == Some((entries, rest))
    ensures ParseValue("{" + s) == Some((Obj(entries), rest))
  {
    assert ("{" + s)[1..] == s;
  }

  lemma MemberUndone(key: string, v: Js, tail: string)
    requires Canonical(v) && EndsValue(tail)
    requires ParseValue(Print(v) + tail) == Some((v, tail))
    ensures ParseMember(PrintString(key) + (":" + (Print(v) + tail))) == Some((Member(key, v), tail))
  {
    var more := ":" + (Print(v) + tail);
    CharsUndone(key, more);
    assert (PrintString(key) + more)[1..] == PrintChars(key) + more;
    assert more[1..] == Print(v) + tail;
  }

  lemma LastMember(m: Member, s: string, rest: string)
    requires ParseMember(s) == Some((m, "}" + rest))
    ensures ParseMembers(s) == Some(([m], rest))
  {
    assert ("}" + rest)[1..] == rest;
  }

  lemma NextMember(m: Member, s: string, entries: seq<Member>, more: string, rest: string)
    requires ParseMember(s) == Some((m, "," + more)) && ParseMembers(more) == Some((entries, rest))
    ensures ParseMembers(s) == Some(([m] + entries, rest))
  {
    assert ("," + more)[1..] == more;
  }

  lemma LastMemberUndone(m: Member, rest: string)
    requires Canonical(m.value) && ParseValue(Print(m.value) + ("}" + rest)) == Some((m.value, "}" + rest))
    ensures ParseMembers(PrintMembers([m]) + rest) == Some(([m], rest))
  {
    MemberUndone(m.key, m.value, "}" + rest);
    AssocMember(PrintString(m.key), ":", Print(m.value), "}", rest);
    LastMember(m, PrintMembers([m]) + rest, rest);
  }

  lemma NextMemberUndone(m: Member, entries: seq<Member>, rest: string)
    requires entries != [] && Canonical(m.value) && forall i | 0 <= i < |entries| :: Canonical(entries[i].value)
    requires ParseMembers(PrintMembers(entries) + rest) == Some((entries, rest))
    requires var tail := "," + (PrintMembers(entries) + rest); ParseValue(Print(m.value) + tail) == Some((m.value, tail))
    ensures ParseMembers(PrintMembers([m] + entries) + rest) == Some(([m] + entries, rest))
  {
    var more := PrintMembers(entries) + rest;
    assert ([m] + entries)[1..] == entries;
    MemberUndone(m.key, m.value, "," + more);
    AssocMember(PrintString(m.key), ":", Print(m.value), "," + PrintMembers(entries), rest);
    Assoc(",", PrintMembers(entries), rest);
    NextMember(m, PrintMembers([m] + entries) + rest, entries, more, rest);
  }

  lemma {:induction false} MembersUndone(entries: seq<Member>, rest: string)
    requires entries != [] && forall i | 0 <= i < |entries| :: Canonical(entries[i].value)
    ensures ParseMembers(PrintMembers(entries) + rest) == Some((entries, rest))
    decreases entries, 0
  {
    var m := entries[0];
    if |entries| == 1 {
      ValueUndone(m.value, "}" + rest);
      LastMemberUndone(m, rest);
      assert entries == [m];
    } else {
      ValueUndone(m.value, "," + (PrintMembers(entries[1..]) + rest));
      MembersUndone(entries[1..], rest);
      NextMemberUndone(m, entries[1..], rest);
      assert entries == [m] + entries[1..];
    }
  }

  /** Parsing the text of canonical data gives the data back, so the text determines it. */
  lemma PrintRoundTrips(v: Js)
    requires Canonical(v)
    ensures ParseValue(Print(v)) == Some((v, ""))
  {
    ValueUndone(v, "");
    assert Print(v) + "" == Print(v);
  }
}
