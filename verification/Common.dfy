/** What all parts use: optional values, lists as sets, and comparisons of integers. */
module Common {
  /** A nullable block pointer, or a map look-up. */
  datatype Option<+T> = None | Some(value: T)

  datatype Comparison = Ge | Gt | Le | Lt | Eq | Ne

  predicate Holds(cmp: Comparison, a: int, b: int) {
    match cmp
    case Ge => a >= b
    case Gt => a > b
    case Le => a <= b
    case Lt => a < b
    case Eq => a == b
    case Ne => a != b
  }

  /** The blocks of a list, as a set. */
  ghost function Elements<T>(s: seq<T>): set<T> {
    set x | x in s
  }

  ghost predicate NoDuplicates<T>(s: seq<T>) {
    forall i, j | 0 <= i < j < |s| :: s[i] != s[j]
  }

  lemma {:induction false} NoDuplicatesBound<T>(s: seq<T>, u: set<T>)
    requires NoDuplicates(s)
    requires forall x | x in s :: x in u
    ensures |s| <= |u|
  {
    if s != [] {
      var last := |s| - 1;
      NoDuplicatesBound(s[..last], u - {s[last]});
    }
  }

  lemma SomeElement<T>(s: set<T>) returns (x: T)
    requires s != {}
    ensures x in s
  {
    x :| x in s;
  }

  /** The elements of a set, in some order. */
  method SetToSeq<T(==)>(s: set<T>) returns (r: seq<T>)
    ensures NoDuplicates(r) && Elements(r) == s && forall x :: x in r <==> x in s
  {
    r := [];
    var rest := s;
    while rest != {}
      invariant NoDuplicates(r) && rest <= s && forall x :: x in r <==> x in s - rest
      decreases rest
    {
      var x :| x in rest;
      assert x !in r && forall i | 0 <= i < |r| :: r[i] in r;
      r := r + [x];
      rest := rest - {x};
    }
  }
}
