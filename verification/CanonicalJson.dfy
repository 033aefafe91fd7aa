/** canonicalJson and normalize (crypto.util.ts): one text for all ways to write the same data. */
module CanonicalJson {
  import opened Basics
  import opened Json

  // ---------------------------------------------------------------- what a value means

  /** Data without an order of keys and without the ways to write the same thing twice. */
  datatype Data = DNull | DBool(b: bool) | DNumber(token: string) | DText(text: string)
                | DList(items: seq<Data>) | DObject(members: map<string, Data>)

  /** An object has one property per key; a number's text is one. */
  predicate Valid(v: Js) {
    match v
    case Num(t) => NumberToken(t)
    case Arr(items) => forall i | 0 <= i < |items| :: Valid(items[i])
    case Obj(entries) => DistinctKeys(entries) && forall i | 0 <= i < |entries| :: Valid(entries[i].value)
    case _ => true
  }

  predicate Finite(v: Js) {
    match v
    case NotFinite => false
    case Arr(items) => forall i | 0 <= i < |items| :: Finite(items[i])
    case Obj(entries) => forall i | 0 <= i < |entries| :: Finite(entries[i].value)
    case _ => true
  }

  /** An undefined property is absent, an undefined array item is null. */
  ghost function Meaning(v: Js): Data
    requires Finite(v)
    decreases v
  {
    match v
    case Undefined => DNull
    case Null => DNull
    case Bool(b) => DBool(b)
    case Num(t) => DNumber(t)
    case BigInt(d) => DText(d)
    case Date(iso) => DText(iso)
    case Str(s) => DText(s)
    case Arr(items) => DList(seq(|items|, i requires 0 <= i < |items| => Meaning(items[i])))
    case Obj(entries) => DObject(Members(entries))
  }

  ghost function Members(entries: seq<Member>): map<string, Data>
    requires forall i | 0 <= i < |entries| :: Finite(entries[i].value)
    decreases entries
  {
    if entries == [] then map[]
    else With(Members(entries[..|entries| - 1]), entries[|entries| - 1])
  }

  ghost function With(members: map<string, Data>, m: Member): map<string, Data>
    requires Finite(m.value)
    decreases m
  {
    if m.value.Undefined? then members else members[m.key := Meaning(m.value)]
  }

  // ---------------------------------------------------------------- the normal form

  function Insert(entries: seq<Member>, m: Member): (r: seq<Member>)
    ensures |r| == |entries| + 1
    ensures forall e :: e in r <==> e in entries || e == m
  {
    if entries == [] || Before(entries[|entries| - 1].key, m.key) then entries + [m]
    else
      assert entries == entries[..|entries| - 1] + [entries[|entries| - 1]];
      Insert(entries[..|entries| - 1], m) + [entries[|entries| - 1]]
  }

  function Sorted(entries: seq<Member>): (r: seq<Member>)
    ensures |r| == |entries|
    ensures forall e :: e in r <==> e in entries
  {
    if entries == [] then []
    else
      assert entries == entries[..|entries| - 1] + [entries[|entries| - 1]];
      Insert(Sorted(entries[..|entries| - 1]), entries[|entries| - 1])
  }

  function Normalized(v: Js): Js
    decreases v
  {
    match v
    case Undefined => Null
    case BigInt(d) => Str(d)
    case Date(iso) => Str(iso)
    case Arr(items) => Arr(seq(|items|, i requires 0 <= i < |items| => Normalized(items[i])))
    case Obj(entries) => Obj(Sorted(Defined(entries)))
    case _ => v
  }

  /** The copy of one property: nothing if it is undefined. */
  function Copy(e: Member): seq<Member>
    decreases e
  {
    if e.value.Undefined? then [] else [Member(e.key, Normalized(e.value))]
  }

  function Defined(entries: seq<Member>): seq<Member>
    decreases entries
  {
    if entries == [] then []
    else
      var e := entries[|entries| - 1];
      Defined(entries[..|entries| - 1]) + Copy(e)
  }

  // ---------------------------------------------------------------- sorting keeps the meaning

  ghost predicate FiniteAll(entries: seq<Member>) {
    forall i | 0 <= i < |entries| :: Finite(entries[i].value)
  }

  lemma {:induction false} InsertSorts(entries: seq<Member>, m: Member)
    requires SortedKeys(entries) && forall e | e in entries :: e.key != m.key
    ensures SortedKeys(Insert(entries, m))
  {
    if entries != [] && !Before(entries[|entries| - 1].key, m.key) {
      var last := entries[|entries| - 1];
      var front := entries[..|entries| - 1];
      InsertSorts(front, m);
      BeforeIsTotal(last.key, m.key);
      var r := Insert(front, m);
      forall i | 0 <= i < |r| ensures Before(r[i].key, last.key) {
        assert r[i] in r;
      }
    } else if entries != [] {
      forall i | 0 <= i < |entries| ensures Before(entries[i].key, m.key) {
        if i < |entries| - 1 {
          BeforeIsTransitive(entries[i].key, entries[|entries| - 1].key, m.key);
        }
      }
    }
  }

  lemma MembersSnoc(entries: seq<Member>, m: Member)
    requires FiniteAll(entries) && Finite(m.value)
    ensures FiniteAll(entries + [m]) && Members(entries + [m]) == With(Members(entries), m)
  {
    assert (entries + [m])[..|entries|] == entries;
  }

  lemma WithCommutes(members: map<string, Data>, m: Member, n: Member)
    requires Finite(m.value) && Finite(n.value) && m.key != n.key
    ensures With(With(members, m), n) == With(With(members, n), m)
  {
  }

  lemma {:induction false} InsertKeepsMembers(entries: seq<Member>, m: Member)
    requires FiniteAll(entries) && Finite(m.value) && forall e | e in entries :: e.key != m.key
    ensures FiniteAll(Insert(entries, m))
    ensures Members(Insert(entries, m)) == With(Members(entries), m)
  {
    if entries == [] || Before(entries[|entries| - 1].key, m.key) {
      MembersSnoc(entries, m);
    } else {
      var last := entries[|entries| - 1];
      var front := entries[..|entries| - 1];
      InsertKeepsMembers(front, m);
      MembersSnoc(Insert(front, m), last);
      WithCommutes(Members(front), m, last);
    }
  }

  lemma {:induction false} SortedSorts(entries: seq<Member>)
    requires DistinctKeys(entries)
    ensures SortedKeys(Sorted(entries))
  {
    if entries != [] {
      var front, last := entries[..|entries| - 1], entries[|entries| - 1];
      SortedSorts(front);
      forall e | e in Sorted(front) ensures e.key != last.key {
        assert e in front;
      }
      InsertSorts(Sorted(front), last);
    }
  }

  lemma {:induction false} SortedKeepsMembers(entries: seq<Member>)
    requires DistinctKeys(entries) && FiniteAll(entries)
    ensures FiniteAll(Sorted(entries)) && Members(Sorted(entries)) == Members(entries)
  {
    if entries != [] {
      var front, last := entries[..|entries| - 1], entries[|entries| - 1];
      SortedKeepsMembers(front);
      forall e | e in Sorted(front) ensures e.key != last.key {
        assert e in front;
      }
      InsertKeepsMembers(Sorted(front), last);
    }
  }

  // ---------------------------------------------------------------- the normal form means the same

  lemma {:induction false} NormalizedIsCanonical(v: Js)
    requires Valid(v) && Finite(v)
    ensures Canonical(Normalized(v)) && Finite(Normalized(v))
    ensures Meaning(Normalized(v)) == Meaning(v)
    decreases v
  {
    match v
    case Arr(items) =>
      forall i | 0 <= i < |items|
        ensures Canonical(Normalized(items[i])) && Finite(Normalized(items[i])) && Meaning(Normalized(items[i])) == Meaning(items[i])
      {
        NormalizedIsCanonical(items[i]);
      }
    case Obj(entries) =>
      DefinedIsCanonical(entries);
      SortedSorts(Defined(entries));
      SortedKeepsMembers(Defined(entries));
      forall i | 0 <= i < |Sorted(Defined(entries))| ensures Canonical(Sorted(Defined(entries))[i].value) {
        assert Sorted(Defined(entries))[i] in Defined(entries);
      }
    case _ =>
  }

  /** Every key of the copy is a key of the original. */
  ghost predicate KeysFrom(copy: seq<Member>, entries: seq<Member>) {
    forall c | c in copy :: exists e :: e in entries && e.key == c.key
  }

  lemma {:induction false} DefinedKeys(entries: seq<Member>)
    ensures KeysFrom(Defined(entries), entries)
  {
    if entries != [] {
      var e, front := entries[|entries| - 1], entries[..|entries| - 1];
      DefinedKeys(front);
      assert entries == front + [e];
      forall c | c in Defined(entries) ensures exists f :: f in entries && f.key == c.key {
        if c in Defined(front) {
          var f :| f in front && f.key == c.key;
          assert f in entries;
        } else {
          assert c in Copy(e);
          assert e in entries;
        }
      }
    }
  }

  /** Canonical properties, their keys all different. */
  ghost predicate CanonicalCopy(d: seq<Member>) {
    DistinctKeys(d) && FiniteAll(d) && forall c | c in d :: Canonical(c.value)
  }

  lemma {:induction false} DefinedIsCanonical(entries: seq<Member>)
    requires DistinctKeys(entries) && forall i | 0 <= i < |entries| :: Valid(entries[i].value) && Finite(entries[i].value)
    ensures CanonicalCopy(Defined(entries)) && Members(Defined(entries)) == Members(entries)
    decreases entries
  {
    if entries != [] {
      var e, front := entries[|entries| - 1], entries[..|entries| - 1];
      DefinedIsCanonical(front);
      NormalizedIsCanonical(e.value);
      assert entries == front + [e];
      NewKey(front, e);
      CopyAdded(Defined(front), e);
    }
  }

  lemma CopyAdded(d: seq<Member>, e: Member)
    requires CanonicalCopy(d) && Finite(e.value) && forall c | c in d :: c.key != e.key
    requires Canonical(Normalized(e.value)) && Finite(Normalized(e.value)) && Meaning(Normalized(e.value)) == Meaning(e.value)
    ensures CanonicalCopy(d + Copy(e)) && Members(d + Copy(e)) == With(Members(d), e)
  {
    if e.value.Undefined? {
      assert d + [] == d;
    } else {
      MembersSnoc(d, Member(e.key, Normalized(e.value)));
    }
  }

  lemma NewKey(front: seq<Member>, e: Member)
    requires DistinctKeys(front + [e])
    ensures forall c | c in Defined(front) :: c.key != e.key
  {
    DefinedKeys(front);
    forall c | c in Defined(front) ensures c.key != e.key {
      var f :| f in front && f.key == c.key;
      var i :| 0 <= i < |front| && front[i] == f;
      assert (front + [e])[i] == f && (front + [e])[|front|] == e;
    }
  }

  // ---------------------------------------------------------------- canonical data with the same meaning is the same

  lemma {:induction false} KeysOfMembers(entries: seq<Member>)
    requires FiniteAll(entries) && forall e | e in entries :: !e.value.Undefined?
    ensures forall k :: k in Members(entries) <==> exists e :: e in entries && e.key == k
  {
    if entries != [] {
      var front, last := entries[..|entries| - 1], entries[|entries| - 1];
      KeysOfMembers(front);
      assert entries == front + [last];
    }
  }

  lemma {:induction false} CanonicalIsUnique(v: Js, w: Js)
    requires Canonical(v) && Canonical(w) && Finite(v) && Finite(w) && Meaning(v) == Meaning(w)
    ensures v == w
    decreases v
  {
    match v
    case Arr(items) =>
      forall i | 0 <= i < |items| ensures items[i] == w.items[i] {
        assert Meaning(v).items[i] == Meaning(w).items[i];
        CanonicalIsUnique(items[i], w.items[i]);
      }
    case Obj(entries) => EntriesAreUnique(entries, w.entries);
    case _ =>
  }

  ghost predicate CanonicalEntries(entries: seq<Member>) {
    SortedKeys(entries) && FiniteAll(entries) && forall i | 0 <= i < |entries| :: Canonical(entries[i].value)
  }

  /** The last key is the greatest one of the map, so both lists end alike. */
  lemma SameLastKey(a: seq<Member>, b: seq<Member>)
    requires a != [] && CanonicalEntries(a) && CanonicalEntries(b) && Members(a) == Members(b)
    ensures b != [] && a[|a| - 1].key == b[|b| - 1].key
  {
    KeysOfMembers(a);
    KeysOfMembers(b);
    var k := a[|a| - 1].key;
    assert a[|a| - 1] in a && k in Members(a);
    var e :| e in b && e.key == k;
    var l := b[|b| - 1].key;
    assert b[|b| - 1] in b && l in Members(b);
    var f :| f in a && f.key == l;
    BeforeIsTotal(k, l);
  }

  lemma {:induction false} EntriesAreUnique(a: seq<Member>, b: seq<Member>)
    requires CanonicalEntries(a) && CanonicalEntries(b) && Members(a) == Members(b)
    ensures a == b
    decreases a
  {
    if a == [] {
      if b != [] {
        SameLastKey(b, a);
      }
    } else {
      SameLastKey(a, b);
      var x, y := a[|a| - 1], b[|b| - 1];
      assert Members(a)[x.key] == Members(b)[y.key];
      CanonicalIsUnique(x.value, y.value);
      var a', b' := a[..|a| - 1], b[..|b| - 1];
      FrontMembers(a);
      FrontMembers(b);
      EntriesAreUnique(a', b');
      assert a == a' + [x] && b == b' + [y];
    }
  }

  lemma FrontMembers(a: seq<Member>)
    requires a != [] && CanonicalEntries(a)
    ensures Members(a[..|a| - 1]) == Members(a) - {a[|a| - 1].key}
  {
    var front, last := a[..|a| - 1], a[|a| - 1];
    LastIsNew(a);
    PutBack(Members(front), last.key, Meaning(last.value));
  }

  lemma PutBack(m: map<string, Data>, k: string, d: Data)
    requires k !in m
    ensures m[k := d] - {k} == m
  {
  }

  lemma LastIsNew(a: seq<Member>)
    requires a != [] && CanonicalEntries(a)
    ensures a[|a| - 1].key !in Members(a[..|a| - 1])
  {
    var front, last := a[..|a| - 1], a[|a| - 1];
    KeysOfMembers(front);
    BeforeIsTotal(last.key, last.key);
    forall e | e in front ensures e.key != last.key {
      var j :| 0 <= j < |front| && front[j] == e;
      assert Before(a[j].key, last.key);
    }
  }

  // ---------------------------------------------------------------- the text

  datatype Refusal = NotFiniteNumber

  function CanonicalText(v: Js): Result<string, Refusal>
    requires Valid(v)
  {
    if !Finite(v) then Failure(NotFiniteNumber)
    else
      NormalizedIsCanonical(v);
      Success(Print(Normalized(v)))
  }

  /** Two values have the same text exactly when they mean the same data. */
  lemma TextIsMeaning(v: Js, w: Js)
    requires Valid(v) && Finite(v) && Valid(w) && Finite(w)
    ensures CanonicalText(v) == CanonicalText(w) <==> Meaning(v) == Meaning(w)
  {
    NormalizedIsCanonical(v);
    NormalizedIsCanonical(w);
    if CanonicalText(v) == CanonicalText(w) {
      PrintRoundTrips(Normalized(v));
      PrintRoundTrips(Normalized(w));
    }
    if Meaning(v) == Meaning(w) {
      CanonicalIsUnique(Normalized(v), Normalized(w));
    }
  }

  /** Parsing the text gives data that means the same and has the same text again. */
  lemma TextSurvivesParsing(v: Js)
    requires Valid(v) && Finite(v)
    ensures var p := ParseValue(CanonicalText(v).value);
            && p.Some? && p.value.1 == ""
            && Valid(p.value.0) && Finite(p.value.0) && Meaning(p.value.0) == Meaning(v)
            && CanonicalText(p.value.0) == CanonicalText(v)
  {
    NormalizedIsCanonical(v);
    PrintRoundTrips(Normalized(v));
    CanonicalIsValid(Normalized(v));
    TextIsMeaning(Normalized(v), v);
  }

  lemma {:induction false} CanonicalIsValid(v: Js)
    requires Canonical(v)
    ensures Valid(v)
    decreases v
  {
    match v
    case Arr(items) =>
      forall i | 0 <= i < |items| ensures Valid(items[i]) { CanonicalIsValid(items[i]); }
    case Obj(entries) =>
      forall i | 0 <= i < |entries| ensures Valid(entries[i].value) { CanonicalIsValid(entries[i].value); }
      forall i, j | 0 <= i < j < |entries| ensures entries[i].key != entries[j].key {
        BeforeIsTotal(entries[i].key, entries[j].key);
      }
    case _ =>
  }

  // ---------------------------------------------------------------- normalize as it is written

  /** Recursion over the value; an object's copy is filled key by key, in sorted order. */
  method Normalize(v: Js) returns (r: Result<Js, Refusal>)
    requires Valid(v)
    ensures if Finite(v) then r == Success(Normalized(v)) else r == Failure(NotFiniteNumber)
    decreases v
  {
    match v {
      case NotFinite => return Failure(NotFiniteNumber);
      case BigInt(d) => return Success(Str(d));
      case Date(iso) => return Success(Str(iso));
      case Undefined => return Success(Null);
      case Arr(items) => r := NormalizeItems(items);
      case Obj(entries) => r := NormalizeEntries(entries);
      case _ => return Success(v);
    }
  }

  method NormalizeItems(items: seq<Js>) returns (r: Result<Js, Refusal>)
    requires Valid(Arr(items))
    ensures if Finite(Arr(items)) then r == Success(Normalized(Arr(items))) else r == Failure(NotFiniteNumber)
    decreases items
  {
    var out: seq<Js> := [];
    var i := 0;
    while i < |items|
      invariant 0 <= i <= |items| && |out| == i
      invariant forall j | 0 <= j < i :: Finite(items[j]) && out[j] == Normalized(items[j])
    {
      var one := Normalize(items[i]);
      if one.Failure? { return one; }
      out := out + [one.value];
      i := i + 1;
    }
    assert out == Normalized(Arr(items)).items;
    return Success(Arr(out));
  }

  method NormalizeEntries(entries: seq<Member>) returns (r: Result<Js, Refusal>)
    requires Valid(Obj(entries))
    ensures if Finite(Obj(entries)) then r == Success(Normalized(Obj(entries))) else r == Failure(NotFiniteNumber)
    decreases entries
  {
    var sorted := Sorted(entries);
    SortedSorts(entries);
    var out: seq<Member> := [];
    var i := 0;
    while i < |sorted|
      invariant 0 <= i <= |sorted|
      invariant Copied(out, sorted[..i])
    {
      var e := sorted[i];
      assert e in entries;
      if e.value.Undefined? {
        SkipsOne(out, sorted, i);
      } else {
        var one := Normalize(e.value);
        if one.Failure? { return one; }
        CopiesOne(out, sorted, i);
        out := out + [Member(e.key, one.value)];
      }
      i := i + 1;
    }
    assert sorted[..i] == sorted;
    CopyIsNormalized(entries, out);
    return Success(Obj(out));
  }

  /** `out` is the canonical copy of the properties seen so far. */
  ghost predicate Copied(out: seq<Member>, seen: seq<Member>) {
    && FiniteAll(seen) && CanonicalEntries(out) && Members(out) == Members(seen)
    && forall o | o in out :: exists s :: s in seen && s.key == o.key
  }

  lemma SkipsOne(out: seq<Member>, sorted: seq<Member>, i: nat)
    requires i < |sorted| && sorted[i].value.Undefined? && Copied(out, sorted[..i])
    ensures Copied(out, sorted[..i + 1])
  {
    var seen := sorted[..i + 1];
    assert seen == sorted[..i] + [sorted[i]];
    MembersSnoc(sorted[..i], sorted[i]);
    forall o | o in out ensures exists s :: s in seen && s.key == o.key {
      var s :| s in sorted[..i] && s.key == o.key;
      assert s in seen;
    }
  }

  lemma CopiesOne(out: seq<Member>, sorted: seq<Member>, i: nat)
    requires i < |sorted| && SortedKeys(sorted) && Valid(sorted[i].value) && Finite(sorted[i].value) && Copied(out, sorted[..i])
    requires !sorted[i].value.Undefined?
    ensures Copied(out + [Member(sorted[i].key, Normalized(sorted[i].value))], sorted[..i + 1])
  {
    var e := sorted[i];
    var m := Member(e.key, Normalized(e.value));
    assert sorted[..i + 1] == sorted[..i] + [e];
    NormalizedIsCanonical(e.value);
    MembersSnoc(sorted[..i], e);
    MembersSnoc(out, m);
    CopiesInOrder(out, sorted, i);
    ExtendsCanonically(out, m);
    forall o | o in out + [m] ensures exists s :: s in sorted[..i + 1] && s.key == o.key {
      if o in out {
        var s :| s in sorted[..i] && s.key == o.key;
        assert s in sorted[..i + 1];
      } else {
        assert e in sorted[..i + 1];
      }
    }
  }

  lemma CopiesInOrder(out: seq<Member>, sorted: seq<Member>, i: nat)
    requires i < |sorted| && SortedKeys(sorted) && Copied(out, sorted[..i])
    ensures forall o | o in out :: Before(o.key, sorted[i].key)
  {
    forall o | o in out ensures Before(o.key, sorted[i].key) {
      var s :| s in sorted[..i] && s.key == o.key;
    }
  }

  lemma ExtendsCanonically(out: seq<Member>, m: Member)
    requires CanonicalEntries(out) && Canonical(m.value) && Finite(m.value) && forall o | o in out :: Before(o.key, m.key)
    ensures CanonicalEntries(out + [m])
  {
  }

  lemma CopyIsNormalized(entries: seq<Member>, out: seq<Member>)
    requires Valid(Obj(entries)) && Copied(out, Sorted(entries))
    ensures Finite(Obj(entries)) && Obj(out) == Normalized(Obj(entries))
  {
    forall i | 0 <= i < |entries| ensures Finite(entries[i].value) {
      assert entries[i] in Sorted(entries);
    }
    SortedKeepsMembers(entries);
    NormalizedIsCanonical(Obj(entries));
    CanonicalIsUnique(Obj(out), Normalized(Obj(entries)));
  }
}
