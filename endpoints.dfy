/** Endpoints of connections: the opaque items of leaf sets, plus the Identity term placed as an item. */
module Endpoints {

  /** An item of a leaf set (an integer in this model), or the Identity term used as an item. */
  datatype Endpoint = Atom(n: int) | IdEnd

  /** Strict order used wherever endpoints are sorted: atoms by value, the Identity last. */
  predicate Below(a: Endpoint, b: Endpoint)
  {
    match a
    case Atom(x) => b.IdEnd? || x < b.n
    case IdEnd => false
  }

  lemma BelowIsStrictTotalOrder(a: Endpoint, b: Endpoint, c: Endpoint)
    ensures !Below(a, a)
    ensures Below(a, b) ==> !Below(b, a)
    ensures a != b ==> Below(a, b) || Below(b, a)
    ensures Below(a, b) && Below(b, c) ==> Below(a, c)
  {
  }

  /** The least element of a set under `Below`. */
  predicate IsLeast(m: Endpoint, s: set<Endpoint>)
  {
    m in s && forall e :: e in s && e != m ==> Below(m, e)
  }

  lemma {:induction false} LeastExists(s: set<Endpoint>)
    requires s != {}
    ensures exists m :: IsLeast(m, s)
    decreases |s|
  {
    var x :| x in s;
    if s == {x} {
      assert IsLeast(x, s);
    } else {
      var rest := s - {x};
      LeastExists(rest);
      var m :| IsLeast(m, rest);
      if Below(x, m) {
        forall e | e in s && e != x ensures Below(x, e) {
          if e != m { BelowIsStrictTotalOrder(x, m, e); }
        }
        assert IsLeast(x, s);
      } else {
        BelowIsStrictTotalOrder(m, x, x);
        assert IsLeast(m, s);
      }
    }
  }

  /** The least endpoint of a non-empty set. */
  function Least(s: set<Endpoint>): (m: Endpoint)
    requires s != {}
    ensures m in s && forall e :: e in s && e != m ==> Below(m, e)
  {
    LeastExists(s);
    var m :| IsLeast(m, s);
    m
  }

  /** The elements of a set, in ascending order. */
  function SortedEndpoints(s: set<Endpoint>): (r: seq<Endpoint>)
    ensures forall i, j :: 0 <= i < j < |r| ==> Below(r[i], r[j])
    ensures forall e :: e in r <==> e in s
    decreases |s|
  {
    if s == {} then []
    else
      var m := Least(s);
      var rest := SortedEndpoints(s - {m});
      assert forall e :: e in rest ==> Below(m, e);
      [m] + rest
  }

  lemma SortedSingleton(x: Endpoint)
    ensures SortedEndpoints({x}) == [x]
  {
    assert {x} - {x} == {};
  }

  lemma SortedPair(a: Endpoint, b: Endpoint)
    requires Below(a, b)
    ensures SortedEndpoints({a, b}) == [a, b]
  {
    BelowIsStrictTotalOrder(a, b, a);
    assert Least({a, b}) == a;
    assert {a, b} - {a} == {b};
    SortedSingleton(b);
  }

  /** The set of the elements of a sequence. */
  function Elements(xs: seq<Endpoint>): (s: set<Endpoint>)
    ensures forall e :: e in s <==> e in xs
  {
    set e | e in xs
  }
}
