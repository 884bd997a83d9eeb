/**
 * operation.py: frozen (deferred) connector calls and the typed set that holds them.
 * A connector callable is represented by an opaque identifier.
 */
module Operation {
  import opened Wrappers
  import opened Endpoints

  /** Identity of a connector callable. */
  type OperatorId = int

  /** What the `operator` argument of `OperationsSet` can be: a callable, or anything else (None included). */
  datatype OperatorArg = Callable(id: OperatorId) | NotCallable

  /** A connector call `operator(source, sink)` that has not been made yet. */
  datatype FreezedOperation = FreezedOperation(operator: OperatorId, source: Endpoint, sink: Endpoint)

  /** A value handed to `check_operations`: a FreezedOperation or some other object. */
  datatype Value = Frozen(op: FreezedOperation) | OtherValue

  /** `FreezedOperation.__eq__`: another FreezedOperation with the same operator, source and sink. */
  predicate FrozenEquals(self: FreezedOperation, other: Value)
  {
    other.Frozen? && (self.operator, self.source, self.sink) == (other.op.operator, other.op.source, other.op.sink)
  }

  lemma FrozenEqualsIsValueEquality(self: FreezedOperation, other: Value)
    ensures FrozenEquals(self, other) <==> other == Frozen(self)
  {
  }

  /** The order of `sorted(..., key=sort_key)`: by operator, then source, then sink. */
  predicate OpBelow(a: FreezedOperation, b: FreezedOperation)
  {
    || a.operator < b.operator
    || (a.operator == b.operator && Below(a.source, b.source))
    || (a.operator == b.operator && a.source == b.source && Below(a.sink, b.sink))
  }

  lemma OpBelowIsStrictTotalOrder(a: FreezedOperation, b: FreezedOperation, c: FreezedOperation)
    ensures !OpBelow(a, a)
    ensures OpBelow(a, b) ==> !OpBelow(b, a)
    ensures a != b ==> OpBelow(a, b) || OpBelow(b, a)
    ensures OpBelow(a, b) && OpBelow(b, c) ==> OpBelow(a, c)
  {
    BelowIsStrictTotalOrder(a.source, b.source, c.source);
    BelowIsStrictTotalOrder(a.sink, b.sink, c.sink);
    BelowIsStrictTotalOrder(b.source, a.source, c.source);
    BelowIsStrictTotalOrder(b.sink, a.sink, c.sink);
  }

  predicate IsLeastOp(m: FreezedOperation, s: set<FreezedOperation>)
  {
    m in s && forall x :: x in s && x != m ==> OpBelow(m, x)
  }

  lemma {:induction false} LeastOpExists(s: set<FreezedOperation>)
    requires s != {}
    ensures exists m :: IsLeastOp(m, s)
    decreases |s|
  {
    var x :| x in s;
    if s == {x} {
      assert IsLeastOp(x, s);
    } else {
      var rest := s - {x};
      LeastOpExists(rest);
      var m :| IsLeastOp(m, rest);
      if OpBelow(x, m) {
        forall e | e in s && e != x ensures OpBelow(x, e) {
          if e != m { OpBelowIsStrictTotalOrder(x, m, e); }
        }
        assert IsLeastOp(x, s);
      } else {
        OpBelowIsStrictTotalOrder(m, x, x);
        assert IsLeastOp(m, s);
      }
    }
  }

  /** `r` lists every element of `s` exactly once, in sort-key order. */
  predicate SortedListOf(r: seq<FreezedOperation>, s: set<FreezedOperation>)
  {
    && (forall i, j :: 0 <= i < j < |r| ==> OpBelow(r[i], r[j]))
    && multiset(r) == multiset(s)
  }

  /** There is only one sorted list of a set: the order in which operations are evaluated is determined. */
  lemma {:induction false} SortedListUnique(r1: seq<FreezedOperation>, r2: seq<FreezedOperation>, s: set<FreezedOperation>)
    requires SortedListOf(r1, s) && SortedListOf(r2, s)
    ensures r1 == r2
    decreases |r1|
  {
    if |r1| == 0 {
      assert |multiset(r2)| == 0;
    } else {
      assert |r2| == |r1| by { assert |multiset(r1)| == |multiset(r2)|; }
      var a, b := r1[0], r2[0];
      assert a in multiset(s) && b in multiset(s);
      if a != b {
        assert b in multiset(r1);
        var k :| 0 <= k < |r1| && r1[k] == b;
        assert a in multiset(r2);
        var l :| 0 <= l < |r2| && r2[l] == a;
        OpBelowIsStrictTotalOrder(a, b, a);
        assert false;
      }
      SortedListTail(r1, s);
      SortedListTail(r2, s);
      SortedListUnique(r1[1..], r2[1..], s - {a});
      assert r1 == [a] + r1[1..] && r2 == [a] + r2[1..];
    }
  }

  /** Without its first element, the sorted list of a set is the sorted list of the rest. */
  lemma SortedListTail(r: seq<FreezedOperation>, s: set<FreezedOperation>)
    requires SortedListOf(r, s) && |r| > 0
    ensures SortedListOf(r[1..], s - {r[0]})
  {
    var a, t := r[0], r[1..];
    assert r == [a] + t;
    assert multiset(t) == multiset(r) - multiset{a};
    assert a in multiset(s);
    assert multiset(s - {a}) == multiset(s) - multiset{a};
    forall i, j | 0 <= i < j < |t|
      ensures OpBelow(t[i], t[j])
    {
      assert t[i] == r[i + 1] && t[j] == r[j + 1];
    }
  }

  /** Without its first element, a strictly sorted list holds exactly the rest of its set. */
  lemma SortedTailMembers(r: seq<FreezedOperation>, s: set<FreezedOperation>)
    requires |r| > 0
    requires forall i, j :: 0 <= i < j < |r| ==> OpBelow(r[i], r[j])
    requires forall x :: x in r <==> x in s
    ensures forall i, j :: 0 <= i < j < |r[1..]| ==> OpBelow(r[1..][i], r[1..][j])
    ensures forall x :: x in r[1..] <==> x in s - {r[0]}
  {
    var h, t := r[0], r[1..];
    forall i, j | 0 <= i < j < |t|
      ensures OpBelow(t[i], t[j])
    {
      assert t[i] == r[i + 1] && t[j] == r[j + 1];
    }
    forall x
      ensures x in t <==> x in s - {h}
    {
      if x in t {
        var k :| 0 <= k < |t| && t[k] == x;
        assert r[k + 1] == x;
        OpBelowIsStrictTotalOrder(h, x, x);
      }
      if x in s - {h} {
        var k :| 0 <= k < |r| && r[k] == x;
        assert k != 0;
        assert t[k - 1] == x;
      }
    }
  }

  /** A strictly sorted list holding exactly the members of a set is its sorted list. */
  lemma {:induction false} SortedListFromMembers(r: seq<FreezedOperation>, s: set<FreezedOperation>)
    requires forall i, j :: 0 <= i < j < |r| ==> OpBelow(r[i], r[j])
    requires forall x :: x in r <==> x in s
    ensures SortedListOf(r, s)
    decreases |r|
  {
    if |r| == 0 {
      assert s == {};
    } else {
      var h, t, rest := r[0], r[1..], s - {r[0]};
      SortedTailMembers(r, s);
      SortedListFromMembers(t, rest);
      assert multiset(r) == multiset{h} + multiset(t) by {
        assert r == [h] + t;
      }
      assert multiset(s) == multiset(rest) + multiset{h} by {
        assert s == rest + {h};
      }
    }
  }

  /** `sorted(s, key=FreezedOperation.sort_key)`. */
  method SortOperations(s: set<FreezedOperation>) returns (r: seq<FreezedOperation>)
    ensures SortedListOf(r, s)
  {
    r := [];
    var rest := s;
    while rest != {}
      invariant multiset(r) + multiset(rest) == multiset(s)
      invariant forall i, j :: 0 <= i < j < |r| ==> OpBelow(r[i], r[j])
      invariant forall i, x :: 0 <= i < |r| && x in rest ==> OpBelow(r[i], x)
      decreases rest
    {
      LeastOpExists(rest);
      var m :| IsLeastOp(m, rest);
      assert multiset(rest) == multiset(rest - {m}) + multiset{m};
      r := r + [m];
      rest := rest - {m};
    }
  }

  /** Every value is a FreezedOperation of the given operator (what `check_operations` accepts). */
  predicate AllCompatible(operations: set<Value>, operator: OperatorId)
  {
    forall v :: v in operations ==> v.Frozen? && v.op.operator == operator
  }

  function AsValues(s: set<FreezedOperation>): (r: set<Value>)
    ensures forall v :: v in r <==> v.Frozen? && v.op in s
  {
    set f | f in s :: Frozen(f)
  }

  function FrozenOf(operations: set<Value>): (r: set<FreezedOperation>)
    ensures forall f :: f in r <==> Frozen(f) in operations
  {
    set v | v in operations && v.Frozen? :: v.op
  }

  /** A Python set of FreezedOperations that all share one connector. */
  class OperationsSet {
    const operator: OperatorId
    var elements: set<FreezedOperation>

    ghost predicate Valid()
      reads this
    {
      forall f :: f in elements ==> f.operator == operator
    }

    constructor FromElements(operator: OperatorId, elements: set<FreezedOperation>)
      requires forall f :: f in elements ==> f.operator == operator
      ensures this.operator == operator && this.elements == elements && Valid()
    {
      this.operator := operator;
      this.elements := elements;
    }

    /** `OperationsSet(operations, operator)`: refuses a non-callable operator and foreign elements. */
    static method New(operations: set<Value>, operator: OperatorArg) returns (r: Result<OperationsSet>)
      ensures r.Failure? <==> !(operator.Callable? && AllCompatible(operations, operator.id))
      ensures r.Success? ==> fresh(r.value) && r.value.Valid()
      ensures r.Success? ==> r.value.operator == operator.id && r.value.elements == FrozenOf(operations)
    {
      if operator.NotCallable? {
        return Failure(ValueError);
      }
      var created := new OperationsSet.FromElements(operator.id, {});
      var ok := created.CheckOperations(operations);
      if !ok {
        return Failure(ValueError);
      }
      created.elements := FrozenOf(operations);
      r := Success(created);
    }

    /** `check_operations`: true when no element would make it raise ValueError. */
    method CheckOperations(operations: set<Value>) returns (ok: bool)
      ensures ok <==> AllCompatible(operations, operator)
    {
      var rest := operations;
      while rest != {}
        invariant rest <= operations
        invariant forall v :: v in operations - rest ==> v.Frozen? && v.op.operator == operator
        decreases rest
      {
        var operation :| operation in rest;
        if !operation.Frozen? || operation.op.operator != operator {
          return false;
        }
        rest := rest - {operation};
      }
      return true;
    }

    /** `union`: a new set with this operator holding the elements of both. */
    method Union(another: OperationsSet) returns (r: Result<OperationsSet>)
      requires Valid()
      ensures r.Failure? <==> !AllCompatible(AsValues(another.elements), operator)
      ensures r.Success? ==> fresh(r.value) && r.value.Valid()
      ensures r.Success? ==> r.value.operator == operator && r.value.elements == elements + another.elements
    {
      var ok := CheckOperations(AsValues(another.elements));
      if !ok {
        return Failure(ValueError);
      }
      assert forall f :: f in another.elements ==> Frozen(f) in AsValues(another.elements);
      var created := new OperationsSet.FromElements(operator, elements + another.elements);
      r := Success(created);
    }

    /** `discard_all`: a copy of this set without the elements of `another`; this set is left as it is. */
    method DiscardAll(another: OperationsSet) returns (r: Result<OperationsSet>)
      requires Valid()
      ensures r.Failure? <==> !AllCompatible(AsValues(another.elements), operator)
      ensures r.Success? ==> fresh(r.value) && r.value.Valid()
      ensures r.Success? ==> r.value.operator == operator && r.value.elements == elements - another.elements
    {
      var ok := CheckOperations(AsValues(another.elements));
      if !ok {
        return Failure(ValueError);
      }
      var c := new OperationsSet.FromElements(operator, elements);
      var rest := another.elements;
      while rest != {}
        invariant rest <= another.elements
        invariant c.operator == operator && c.Valid()
        invariant c.elements == elements - (another.elements - rest)
        decreases rest
      {
        var operation :| operation in rest;
        c.elements := c.elements - {operation};
        rest := rest - {operation};
      }
      r := Success(c);
    }

    /** `add_freezed_operation(a, b)`: adds the frozen call `operator(a, b)` in place. */
    method AddFreezedOperation(a: Endpoint, b: Endpoint)
      requires Valid()
      modifies this
      ensures Valid()
      ensures elements == old(elements) + {FreezedOperation(operator, a, b)}
    {
      elements := elements + {FreezedOperation(operator, a, b)};
    }

    /** `as_sorted_list`: every element once, in sort-key order. */
    method AsSortedList() returns (r: seq<FreezedOperation>)
      ensures SortedListOf(r, elements)
    {
      r := SortOperations(elements);
    }
  }
}
