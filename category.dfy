/** category.py: the value every term denotes, its validated construction, equality and evaluation. */
module Category {
  import opened Wrappers
  import opened Endpoints
  import opened Operation

  /** The three boundary sets of a term and the connector they belong to. */
  datatype Category = Category(
    operator: OperatorId,
    sources: set<Endpoint>,
    sinks: set<Endpoint>,
    operations: set<FreezedOperation>)

  /** The `operations` argument of the constructor: missing, not an OperationsSet, or an OperationsSet. */
  datatype OperationsArg = NoOperations | NotAnOperationsSet | OperationsSetOf(elements: set<FreezedOperation>)

  /** `Category.__init__`: ValueError when any argument is None or `operations` is not an OperationsSet. */
  function NewCategory(
    operator: Option<OperatorId>,
    sources: Option<set<Endpoint>>,
    sinks: Option<set<Endpoint>>,
    operations: OperationsArg): (r: Result<Category>)
    ensures r.Success? <==> operator.Some? && sources.Some? && sinks.Some? && operations.OperationsSetOf?
    ensures r.Success? ==> r.value.operator == operator.value && r.value.sources == sources.value
    ensures r.Success? ==> r.value.sinks == sinks.value && r.value.operations == operations.elements
  {
    if operator.None? || sources.None? || sinks.None? || operations.NoOperations? then Failure(ValueError)
    else if operations.NotAnOperationsSet? then Failure(ValueError)
    else Success(Category(operator.value, sources.value, sinks.value, operations.elements))
  }

  /** What `==` may be handed on its right: None, an object that is not a Category, or a Category. */
  datatype Other = NoneValue | NotCategory | Is(category: Category)

  /** `Category.__eq__`: same operator, then the same sinks, sources and operations. */
  predicate Equals(self: Category, other: Other)
  {
    if other.NoneValue? then false
    else if other.NotCategory? then false
    else if self.operator != other.category.operator then false
    else
      && self.sinks == other.category.sinks
      && self.sources == other.category.sources
      && self.operations == other.category.operations
  }

  lemma EqualsIsValueEquality(self: Category, other: Other)
    ensures Equals(self, other) <==> other == Is(self)
  {
  }

  lemma EqualsIsEquivalence(a: Category, b: Category, c: Category)
    ensures Equals(a, Is(a))
    ensures Equals(a, Is(b)) ==> Equals(b, Is(a))
    ensures Equals(a, Is(b)) && Equals(b, Is(c)) ==> Equals(a, Is(c))
  {
  }

  /** `evaluate`: the connector calls made, one per stored operation, in `as_sorted_list` order. */
  method Evaluate(c: Category) returns (calls: seq<FreezedOperation>)
    ensures SortedListOf(calls, c.operations)
  {
    var sorted := SortOperations(c.operations);
    calls := [];
    for i := 0 to |sorted|
      invariant calls == sorted[..i]
    {
      calls := calls + [sorted[i]];
    }
    assert sorted[..|sorted|] == sorted;
  }
}
