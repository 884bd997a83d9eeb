/** processed_term.py: the operation tags of tree nodes. */
module CategoryOperations {

  /** `CategoryOperations`: ADD, DISCARD and ARROW. */
  datatype CategoryOperation = ADD | DISCARD | ARROW

  /** The enum values: the symbol each operation prints as. */
  function Symbol(op: CategoryOperation): (c: char)
    ensures c in "+-*"
  {
    match op
    case ADD => '+'
    case DISCARD => '-'
    case ARROW => '*'
  }

  lemma SymbolsAreDistinct(a: CategoryOperation, b: CategoryOperation)
    ensures Symbol(a) == Symbol(b) <==> a == b
  {
  }
}

/** processed_term.py: validated tree nodes, their printed form, their equality; and the text-based order of terms. */
module ProcessedTerms {
  import opened Wrappers
  import opened Endpoints
  import opened Strings
  import opened CategoryOperations
  import opened Term

  /** `ProcessedTerm.__init__`: ValueError if any argument is None; `.sink` is the first argument, `.source` the third. */
  function NewProcessedTerm(sink: Option<Term>, operation: Option<CategoryOperation>, source: Option<Term>)
    : (r: Result<ProcessedTerm>)
    ensures r.Success? <==> sink.Some? && operation.Some? && source.Some?
    ensures r.Success? ==> r.value.sink == sink.value && r.value.source == source.value
    ensures r.Success? ==> r.value.operation == operation.value
  {
    if sink.None? || operation.None? || source.None? then Failure(ValueError)
    else Success(ProcessedTerm(sink.value, operation.value, source.value))
  }

  function EndpointText(e: Endpoint): string
  {
    match e
    case Atom(n) => IntToString(n)
    case IdEnd => "I"
  }

  function EndpointTexts(xs: seq<Endpoint>): (r: seq<string>)
    ensures |r| == |xs|
  {
    if |xs| == 0 then [] else [EndpointText(xs[0])] + EndpointTexts(xs[1..])
  }

  /** `str(term)`: `I`, `O`, `C(items)` with the items in ascending order, or the tree node. */
  function Text(t: Term): string
  {
    match t
    case Identity => "I"
    case Zero => "O"
    case Adder(items) => "C(" + Join(", ", EndpointTexts(SortedEndpoints(items))) + ")"
    case Mediate(_, pt) => ProcessedText(pt)
  }

  /** `ProcessedTerm.__str__`: `left op right`, an operand in parentheses iff it needs them. */
  function ProcessedText(pt: ProcessedTerm): string
  {
    var sym := [Symbol(pt.operation)];
    if !NeedsParenthesisOnPrint(pt.sink) then
      if !NeedsParenthesisOnPrint(pt.source) then Text(pt.sink) + " " + sym + " " + Text(pt.source)
      else Text(pt.sink) + " " + sym + " " + ("(" + Text(pt.source) + ")")
    else if !NeedsParenthesisOnPrint(pt.source) then ("(" + Text(pt.sink) + ")") + " " + sym + " " + Text(pt.source)
    else ("(" + Text(pt.sink) + ")") + " " + sym + " " + ("(" + Text(pt.source) + ")")
  }

  /** An operand as it appears inside a printed node. */
  function OperandText(t: Term): string
  {
    if NeedsParenthesisOnPrint(t) then "(" + Text(t) + ")" else Text(t)
  }

  lemma ProcessedTextShape(pt: ProcessedTerm)
    ensures ProcessedText(pt) == OperandText(pt.sink) + " " + [Symbol(pt.operation)] + " " + OperandText(pt.source)
  {
  }

  /** `ProcessedTerm.__eq__`: the same operation and `==` operands. */
  predicate ProcessedEquals(self: ProcessedTerm, other: ProcessedTerm)
  {
    (Symbol(self.operation) == Symbol(other.operation)) && TermEq(self.sink, other.sink) && TermEq(self.source, other.source)
  }

  /** `Category.__lt__`: terms are ordered by their printed text. */
  predicate TermLess(a: Term, b: Term)
  {
    StrLess(Text(a), Text(b))
  }

  /** `Category.__hash__` hashes the printed text: this is what it is computed from. */
  function HashKey(t: Term): string
  {
    Text(t)
  }

  /** Two tree nodes are equal exactly when their operations are the same and their operands are `==`. */
  lemma ProcessedEqualsMeaning(a: ProcessedTerm, b: ProcessedTerm)
    ensures ProcessedEquals(a, b) <==> a.operation == b.operation && TermEq(a.sink, b.sink) && TermEq(a.source, b.source)
  {
    SymbolsAreDistinct(a.operation, b.operation);
  }

  /** The node doctests, with the atoms 1 and 2 for `'sink'` and `'source'`. */
  lemma ProcessedEqualsDoctests()
    ensures var a := ProcessedTerm(Adder({Atom(1)}), ARROW, Adder({Atom(2)}));
      && ProcessedEquals(a, a)
      && !ProcessedEquals(a, ProcessedTerm(Adder({Atom(1)}), ARROW, Adder({Atom(1)})))
      && !ProcessedEquals(a, ProcessedTerm(Adder({Atom(1)}), ADD, Adder({Atom(2)})))
      && !ProcessedEquals(a, ProcessedTerm(Adder({Atom(2)}), ARROW, Adder({Atom(2)})))
  {
  }

  lemma LeafTexts()
    ensures Text(Adder({Atom(1)})) == "C(1)"
    ensures Text(Adder({Atom(2)})) == "C(2)"
    ensures Text(Adder({Atom(1), Atom(2)})) == "C(1, 2)"
  {
    LeafTextsOf(Adder({Atom(1)}), Adder({Atom(2)}), Adder({Atom(1), Atom(2)}));
  }

  lemma LeafTextsOf(one: Term, two: Term, both: Term)
    requires one == Adder({Atom(1)}) && two == Adder({Atom(2)}) && both == Adder({Atom(1), Atom(2)})
    ensures Text(one) == "C(1)" && Text(two) == "C(2)" && Text(both) == "C(1, 2)"
  {
    SortedSingleton(Atom(1));
    SortedSingleton(Atom(2));
    SortedPair(Atom(1), Atom(2));
  }

  /** `a * b` prints as its two operands around `*`, and is never wrapped itself. */
  lemma TimesPrints(a: Term, b: Term)
    ensures Text(Times(a, b)) == OperandText(a) + " * " + OperandText(b)
    ensures !NeedsParenthesisOnPrint(Times(a, b))
  {
    TimesRecordsNode(a, b);
    var pt := ProcessedTerm(a, ARROW, b);
    assert Text(Mediate(CatOf(Times(a, b)), pt)) == ProcessedText(pt);
    ProcessedTextShape(pt);
  }

  lemma StarJoinAssociates(x: string, y: string, z: string)
    ensures (x + " * " + y) + " * " + z == x + " * " + y + " * " + z == x + " * " + (y + " * " + z)
  {
  }

  /** Arrow chains print without parentheses, so both groupings of `a * b * c` print alike. */
  lemma ArrowChainsPrintFlat(a: Term, b: Term, c: Term)
    ensures Text(Times(Times(a, b), c)) == OperandText(a) + " * " + OperandText(b) + " * " + OperandText(c)
    ensures Text(Times(Times(a, b), c)) == Text(Times(a, Times(b, c)))
  {
    var ab, bc := Times(a, b), Times(b, c);
    var x, y, z := OperandText(a), OperandText(b), OperandText(c);
    assert OperandText(ab) == x + " * " + y by {
      TimesPrints(a, b);
    }
    assert OperandText(bc) == y + " * " + z by {
      TimesPrints(b, c);
    }
    assert Text(Times(ab, c)) == (x + " * " + y) + " * " + z by {
      TimesPrints(ab, c);
    }
    assert Text(Times(a, bc)) == x + " * " + (y + " * " + z) by {
      TimesPrints(a, bc);
    }
    StarJoinAssociates(x, y, z);
  }

  /** A sum of two leaf sets prints as their texts around `+`, and is wrapped as an operand. */
  lemma SumOfLeavesPrints(u: Term, v: Term)
    requires u.Adder? && v.Adder?
    ensures Text(Plus(u, v)) == Text(u) + " + " + Text(v)
    ensures NeedsParenthesisOnPrint(Plus(u, v))
  {
    var pt := ProcessedTerm(u, ADD, v);
    assert Text(Plus(u, v)) == ProcessedText(pt);
  }

  /** Leaf sets printing `C(1, 2)`, `C(1)` and `C(2)`: their sum prints first and is wrapped in a product. */
  lemma LeafSumAndProductTexts(p: Term, u: Term, v: Term)
    requires p.Adder? && u.Adder? && v.Adder?
    requires Text(p) == "C(1, 2)" && Text(u) == "C(1)" && Text(v) == "C(2)"
    ensures Text(Plus(u, v)) == "C(1) + C(2)"
    ensures Text(Times(p, Plus(u, v))) == "C(1, 2) * (C(1) + C(2))"
  {
    var sum := Plus(u, v);
    SumOfLeavesPrints(u, v);
    SumString(Text(u), Text(v), Text(sum));
    TimesPrints(p, sum);
    ProductString(Text(p), Text(sum), Text(Times(p, sum)));
  }

  lemma SumString(x: string, y: string, s: string)
    requires x == "C(1)" && y == "C(2)" && s == x + " + " + y
    ensures s == "C(1) + C(2)"
  {
  }

  lemma ProductString(x: string, s: string, r: string)
    requires x == "C(1, 2)" && s == "C(1) + C(2)" && r == x + " * " + ("(" + s + ")")
    ensures r == "C(1, 2) * (C(1) + C(2))"
  {
  }

  /** A sum operand is wrapped: `C(1, 2) * (C(1) + C(2))`. */
  lemma SumOperandIsParenthesised()
    ensures Text(Times(Adder({Atom(1), Atom(2)}), Plus(Adder({Atom(1)}), Adder({Atom(2)})))) == "C(1, 2) * (C(1) + C(2))"
  {
    LeafTexts();
    LeafSumAndProductTexts(Adder({Atom(1), Atom(2)}), Adder({Atom(1)}), Adder({Atom(2)}));
  }

  /**
   * Hash and order come from the text, not from `==`: `C(1, 2) == C(1) + C(2)`, yet the two print
   * differently and `C(1) + C(2)` sorts first.
   */
  lemma EqualTermsMayPrintDifferently()
    ensures TermEq(Adder({Atom(1), Atom(2)}), Plus(Adder({Atom(1)}), Adder({Atom(2)})))
    ensures HashKey(Adder({Atom(1), Atom(2)})) != HashKey(Plus(Adder({Atom(1)}), Adder({Atom(2)})))
    ensures TermLess(Plus(Adder({Atom(1)}), Adder({Atom(2)})), Adder({Atom(1), Atom(2)}))
  {
    PairEqualsSum();
    LeafTexts();
    LeafSumAndProductTexts(Adder({Atom(1), Atom(2)}), Adder({Atom(1)}), Adder({Atom(2)}));
    SumSortsBeforePair(Adder({Atom(1), Atom(2)}), Plus(Adder({Atom(1)}), Adder({Atom(2)})));
  }

  lemma PairEqualsSum()
    ensures TermEq(Adder({Atom(1), Atom(2)}), Plus(Adder({Atom(1)}), Adder({Atom(2)})))
  {
  }

  /** A term printing `C(1) + C(2)` hashes apart from, and sorts before, one printing `C(1, 2)`. */
  lemma SumSortsBeforePair(pair: Term, sum: Term)
    requires Text(pair) == "C(1, 2)" && Text(sum) == "C(1) + C(2)"
    ensures HashKey(pair) != HashKey(sum)
    ensures TermLess(sum, pair)
  {
    SumTextSortsFirst();
  }

  /** `"C(1) + C(2)" < "C(1, 2)"`: they first differ at `)` against `,`. */
  lemma SumTextSortsFirst()
    ensures StrLess("C(1) + C(2)", "C(1, 2)")
  {
    var sum, pair := "C(1) + C(2)", "C(1, 2)";
    assert StrLess(sum[3..], pair[3..]);
    assert sum[2..][1..] == sum[3..] && pair[2..][1..] == pair[3..];
    assert StrLess(sum[2..], pair[2..]);
    assert sum[1..][1..] == sum[2..] && pair[1..][1..] == pair[2..];
    assert StrLess(sum[1..], pair[1..]);
  }

  /** The text order is a strict total order on printed forms. */
  lemma TermLessIsStrictOrder(a: Term, b: Term, c: Term)
    ensures !TermLess(a, a)
    ensures TermLess(a, b) && TermLess(b, c) ==> TermLess(a, c)
    ensures Text(a) == Text(b) || TermLess(a, b) || TermLess(b, a)
  {
    StrLessIrreflexive(Text(a));
    if TermLess(a, b) && TermLess(b, c) {
      StrLessTransitive(Text(a), Text(b), Text(c));
    }
    StrLessTotal(Text(a), Text(b));
  }
}
