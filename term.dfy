/**
 * term.py: the terms of the equation algebra (Identity, Zero, the leaf set `Adder` and the
 * binary `MediateTerm`) and the operators `+`, `-` and `*` that build them.
 */
module Term {
  import opened Wrappers
  import opened Endpoints
  import opened Operation
  import opened Category
  import opened CategoryOperations

  /** The one connector every term of this model is built for. */
  const Connector: OperatorId := 0

  /**
   * A term. A `Mediate` node stores the Category computed when it was built (as `MediateTerm`
   * does) and the tree node it was built from; `ProcessedTerm` is declared here because the two
   * types refer to each other.
   */
  datatype Term =
    | Identity
    | Zero
    | Adder(items: set<Endpoint>)
    | Mediate(category: Category, processed: ProcessedTerm)

  /** The tree node `left <operation> right`; `sink` is the left operand and `source` the right one. */
  datatype ProcessedTerm = ProcessedTerm(sink: Term, operation: CategoryOperation, source: Term)

  /** The sets a term carries: fixed for Identity, Zero and leaf sets, stored for built terms. */
  function CatOf(t: Term): Category
  {
    match t
    case Identity => Category(Connector, {IdEnd}, {IdEnd}, {})
    case Zero => Category(Connector, {}, {}, {})
    case Adder(items) => Category(Connector, items, items, {})
    case Mediate(c, _) => c
  }

  /** `a == b` on terms: Category equality of the carried sets; the tree plays no part. */
  predicate TermEq(a: Term, b: Term)
  {
    Equals(CatOf(a), Is(CatOf(b)))
  }

  /** The sets of `a + b`. */
  function UnionCat(a: Category, b: Category): Category
  {
    Category(a.operator, a.sources + b.sources, a.sinks + b.sinks, a.operations + b.operations)
  }

  /** The sets of `a - b`. */
  function DiscardCat(a: Category, b: Category): Category
  {
    Category(a.operator, a.sources - b.sources, a.sinks - b.sinks, a.operations - b.operations)
  }

  /** `EquationTerm.__add__`. */
  function Plus(a: Term, b: Term): Term
  {
    Mediate(UnionCat(CatOf(a), CatOf(b)), ProcessedTerm(a, ADD, b))
  }

  /** `EquationTerm.__sub__`. */
  function Minus(a: Term, b: Term): Term
  {
    Mediate(DiscardCat(CatOf(a), CatOf(b)), ProcessedTerm(a, DISCARD, b))
  }

  /** The connections `*` adds: every source paired with every sink, Identity endpoints skipped. */
  function Cross(operator: OperatorId, sources: set<Endpoint>, sinks: set<Endpoint>): (r: set<FreezedOperation>)
    ensures forall f :: f in r <==>
      f.operator == operator && f.source in sources && f.sink in sinks && f.source != IdEnd && f.sink != IdEnd
  {
    set s, t | s in sources && t in sinks && s != IdEnd && t != IdEnd :: FreezedOperation(operator, s, t)
  }

  /** `s` with an Identity endpoint replaced by the whole of `replacement`. */
  function Substitute(s: set<Endpoint>, replacement: set<Endpoint>): (r: set<Endpoint>)
    ensures forall e :: e in r <==> (e in s && e != IdEnd) || (IdEnd in s && e in replacement)
  {
    (s - {IdEnd}) + (if IdEnd in s then replacement else {})
  }

  /** The sets of `a * b` when neither special case of `EquationTerm.__mul__` applies. */
  function ComposeCat(a: Category, b: Category): Category
  {
    Category(
      b.operator,
      Substitute(b.sources, a.sources),
      Substitute(a.sinks, b.sinks),
      a.operations + b.operations + Cross(a.operator, a.sources, b.sinks))
  }

  /**
   * `a * b`: `Identity.__mul__` and `Zero.__mul__` when `a` is Identity or Zero, otherwise
   * `EquationTerm.__mul__` with its Identity and Zero special cases for `b`.
   */
  function Times(a: Term, b: Term): Term
  {
    var pt := ProcessedTerm(a, ARROW, b);
    var A, B := CatOf(a), CatOf(b);
    match a
    case Identity => Mediate(B, pt)
    case Zero => Mediate(Category(B.operator, B.sources, {}, B.operations), pt)
    case _ =>
      if b.Identity? then Mediate(Category(B.operator, A.sources, A.sinks, A.operations), pt)
      else if b.Zero? then Mediate(Category(B.operator, {}, A.sinks, A.operations), pt)
      else Mediate(ComposeCat(A, B), pt)
  }

  /** Every product records its node: `a * b` is the tree node `a * b` with the sets it computed. */
  lemma TimesRecordsNode(a: Term, b: Term)
    ensures Times(a, b) == Mediate(CatOf(Times(a, b)), ProcessedTerm(a, ARROW, b))
  {
  }

  /** The term `left <op> right` built through the operator `op` stands for. */
  function Build(left: Term, op: CategoryOperation, right: Term): Term
  {
    match op
    case ADD => Plus(left, right)
    case DISCARD => Minus(left, right)
    case ARROW => Times(left, right)
  }

  /** Every node was built by its operator: the stored sets are the ones `+`, `-` or `*` computed. */
  predicate WellFormed(t: Term)
  {
    match t
    case Mediate(_, ProcessedTerm(l, op, r)) => WellFormed(l) && WellFormed(r) && t == Build(l, op, r)
    case _ => true
  }

  /** No Zero term occurs anywhere in the tree. */
  predicate ZeroFree(t: Term)
  {
    match t
    case Zero => false
    case Mediate(_, ProcessedTerm(l, _, r)) => ZeroFree(l) && ZeroFree(r)
    case _ => true
  }

  /** `needs_parenthesis_on_print`: only sums and differences are wrapped when printed as an operand. */
  predicate NeedsParenthesisOnPrint(t: Term)
  {
    t.Mediate? && (t.processed.operation == ADD || t.processed.operation == DISCARD)
  }

  /** `EquationTerm.__mul__` with its loops: builds new_operations, new_sources and new_sinks. */
  method Mul(a: Term, b: Term) returns (r: Term)
    ensures r == Times(a, b)
  {
    var pt := ProcessedTerm(a, ARROW, b);
    var A, B := CatOf(a), CatOf(b);
    if a.Identity? {
      return Mediate(B, pt);
    }
    if a.Zero? {
      return Mediate(Category(B.operator, B.sources, {}, B.operations), pt);
    }
    if b.Identity? {
      return Mediate(Category(B.operator, A.sources, A.sinks, A.operations), pt);
    }
    if b.Zero? {
      return Mediate(Category(B.operator, {}, A.sinks, A.operations), pt);
    }

    var newOperations := NewOperations(A.operator, A.sources, B.sinks);
    var newSources := SubstituteIdentity(B.sources, A.sources);
    var newSinks := SubstituteIdentity(A.sinks, B.sinks);
    var operations := A.operations + B.operations + newOperations;
    r := Mediate(Category(B.operator, newSources, newSinks, operations), pt);
  }

  /** The first loop of `EquationTerm.__mul__`: an OperationsSet filled source by source. */
  method NewOperations(operator: OperatorId, sources: set<Endpoint>, sinks: set<Endpoint>)
    returns (operations: set<FreezedOperation>)
    ensures operations == Cross(operator, sources, sinks)
  {
    var newOperations := new OperationsSet.FromElements(operator, {});
    var sourcesLeft := sources;
    while sourcesLeft != {}
      invariant sourcesLeft <= sources
      invariant newOperations.operator == operator && newOperations.Valid()
      invariant newOperations.elements == Cross(operator, sources - sourcesLeft, sinks)
      decreases sourcesLeft
    {
      var source :| source in sourcesLeft;
      if source != IdEnd {
        ConnectSource(newOperations, source, sinks);
      }
      sourcesLeft := sourcesLeft - {source};
    }
    operations := newOperations.elements;
  }

  /** The inner loop: one source connected to every sink that is not the Identity. */
  method ConnectSource(operations: OperationsSet, source: Endpoint, sinks: set<Endpoint>)
    requires operations.Valid() && source != IdEnd
    modifies operations
    ensures operations.Valid()
    ensures operations.elements == old(operations.elements) + Cross(operations.operator, {source}, sinks)
  {
    var sinksLeft := sinks;
    while sinksLeft != {}
      invariant sinksLeft <= sinks
      invariant operations.Valid()
      invariant operations.elements == old(operations.elements) + Cross(operations.operator, {source}, sinks - sinksLeft)
      decreases sinksLeft
    {
      var sink :| sink in sinksLeft;
      if sink != IdEnd {
        operations.AddFreezedOperation(source, sink);
      }
      sinksLeft := sinksLeft - {sink};
    }
  }

  /** The new_sources and new_sinks loops: an Identity element is replaced by `replacement`. */
  method SubstituteIdentity(s: set<Endpoint>, replacement: set<Endpoint>) returns (r: set<Endpoint>)
    ensures r == Substitute(s, replacement)
  {
    r := {};
    var vs := s;
    while vs != {}
      invariant vs <= s
      invariant r == Substitute(s - vs, replacement)
      decreases vs
    {
      var v :| v in vs;
      if v == IdEnd {
        r := r + replacement;
      } else {
        r := r + {v};
      }
      vs := vs - {v};
    }
  }

  /** `Adder.__init__`: each item becomes a source and a sink; an Identity item brings its own sets. */
  method AdderCategory(items: set<Endpoint>) returns (c: Category)
    ensures c == CatOf(Adder(items))
  {
    var sources: set<Endpoint> := {};
    var sinks: set<Endpoint> := {};
    var operations: set<FreezedOperation> := {};
    var rest := items;
    while rest != {}
      invariant rest <= items
      invariant sources == items - rest && sinks == items - rest && operations == {}
      decreases rest
    {
      var item :| item in rest;
      if item == IdEnd {
        var identity := CatOf(Identity);
        sources := sources + identity.sources;
        sinks := sinks + identity.sinks;
        operations := operations + identity.operations;
      } else {
        sources := sources + {item};
        sinks := sinks + {item};
      }
      rest := rest - {item};
    }
    c := Category(Connector, sources, sinks, operations);
  }

  /** `Adder.combine`: the leaf set of both item sets; ValueError for anything but a leaf set. */
  function Combine(self: Term, adder: Term): (r: Result<Term>)
    requires self.Adder?
    ensures r.Failure? <==> !adder.Adder?
    ensures r.Success? ==> r.value.Adder? && TermEq(r.value, Plus(self, adder))
  {
    if !adder.Adder? then Failure(ValueError)
    else Success(Adder(self.items + adder.items))
  }

  /** The left-nested sum `C(x0) + C(x1) + ... + C(xn)` of singleton leaf sets. */
  function AdditionChain(xs: seq<Endpoint>): Term
    requires |xs| > 0
  {
    if |xs| == 1 then Adder({xs[0]})
    else Plus(AdditionChain(xs[..|xs| - 1]), Adder({xs[|xs| - 1]}))
  }

  lemma AdditionChainStep(xs: seq<Endpoint>, i: nat)
    requires 0 < i < |xs|
    ensures AdditionChain(xs[..i + 1]) == Plus(AdditionChain(xs[..i]), Adder({xs[i]}))
  {
    assert xs[..i + 1][..i] == xs[..i];
  }

  /** `Adder.reduce_to_additions`: an empty leaf set, or the `+` chain of its items in sorted order. */
  method ReduceToAdditions(self: Term) returns (r: Term)
    requires self.Adder?
    ensures self.items == {} ==> r == Adder({})
    ensures self.items != {} ==> r == AdditionChain(SortedEndpoints(self.items))
  {
    if |self.items| == 0 {
      return Adder({});
    }
    var items := SortedEndpoints(self.items);
    assert items[0] in self.items;
    var retuned := Adder({items[0]});
    for i := 1 to |items|
      invariant retuned == AdditionChain(items[..i])
    {
      AdditionChainStep(items, i);
      retuned := Plus(retuned, Adder({items[i]}));
    }
    assert items[..|items|] == items;
    r := retuned;
  }
}
