/** Small shared vocabulary: optional values and fresh row identifiers. */
module Basics {

  datatype Option<+T> = None | Some(value: T)

  datatype Result<+T, +E> = Success(value: T) | Failure(error: E)

  /** The least element of a non-empty finite set of integers. */
  ghost predicate IsLeast(x: int, s: set<int>) {
    x in s && forall y | y in s :: x <= y
  }

  lemma SomeElement<T>(s: set<T>) returns (a: T)
    requires s != {}
    ensures a in s
  {
    a :| a in s;
  }

  lemma {:induction false} LeastExists(s: set<int>)
    requires s != {}
    ensures exists x :: IsLeast(x, s)
    decreases |s|
  {
    var a := SomeElement(s);
    if s == {a} {
      assert IsLeast(a, s);
    } else {
      var rest := s - {a};
      assert s == rest + {a};
      LeastExists(rest);
      var b :| IsLeast(b, rest);
      assert IsLeast(if a < b then a else b, s);
    }
  }

  function Least(s: set<int>): (x: int)
    requires s != {}
    ensures IsLeast(x, s)
  {
    LeastExists(s);
    var x :| x in s && forall y | y in s :: x <= y;
    x
  }

  function Min(a: int, b: int): int {
    if a < b then a else b
  }

  /** An identifier that no row carries yet. */
  ghost function Fresh(used: set<nat>): (id: nat)
    ensures id !in used
  {
    FreshExists(used);
    var id: nat :| id !in used;
    id
  }

  lemma FreshExists(used: set<nat>)
    ensures exists id: nat :: id !in used
  {
    var top := Bound(used);
    assert top !in used;
  }

  ghost function Bound(used: set<nat>): (top: nat)
    ensures forall id | id in used :: id < top
    decreases used
  {
    if used == {} then 0
    else
      var a :| a in used;
      var rest := Bound(used - {a});
      assert forall id | id in used :: id == a || id in used - {a};
      if a < rest then rest else a + 1
  }
}
