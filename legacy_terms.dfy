/**
 * terms.py: the older, standalone version of the algebra. Its terms are `I`, `O` and the
 * `Container`, which keeps the same three sets as the newer terms but compares and orders
 * by its printed text, and whose `*` has its own treatment of Identity and Zero.
 */
module LegacyTerms {
  import opened Endpoints
  import opened Operation
  import opened Strings
  import opened SetOperations
  import Term

  /** `Freezed_fnc`: a connector call held back; the connector is only ever called positionally. */
  datatype FreezedFnc = FreezedFnc(fnc: OperatorId, alist: seq<Endpoint>)

  /** `Freezed_fnc.__eq__`: the arguments are compared, the function is not. */
  predicate FreezedEquals(a: FreezedFnc, b: FreezedFnc)
  {
    a.alist == b.alist
  }

  /** What `Freezed_fnc.__hash__` is computed from: the function together with the arguments. */
  function FreezedHashKey(f: FreezedFnc): (OperatorId, seq<Endpoint>)
  {
    (f.fnc, f.alist)
  }

  /**
   * Within one connector, `==` on held calls is value equality, so a set of them is a set of
   * values; two calls of different connectors with the same arguments are `==` yet hash apart.
   */
  lemma FreezedEqualityIgnoresFunction(a: FreezedFnc, b: FreezedFnc)
    ensures a.fnc == b.fnc ==> (FreezedEquals(a, b) <==> a == b)
    ensures FreezedEquals(a, b) && a.fnc != b.fnc ==> FreezedHashKey(a) != FreezedHashKey(b)
  {
  }

  /** The connector all terms of one `from_operator` call share. */
  const LConnector: OperatorId := 0

  /**
   * A term: the Identity `I`, the Zero `O`, or a Container with its three sets and the items it
   * prints (`processeditems`).
   */
  datatype LTerm =
    | LIdentity
    | LZero
    | Container(sources: set<Endpoint>, sinks: set<Endpoint>, operations: set<FreezedFnc>, processed: seq<Piece>)

  /** An item handed to a Container: a plain value (an endpoint) or a term. */
  datatype Item = Num(n: int) | Part(term: LTerm)

  /** One printed piece of a Container: an item, or an operator sign such as `'*'`. */
  datatype Piece = Given(item: Item) | Sign(op: char)

  function Sources(t: LTerm): set<Endpoint>
  {
    match t
    case LIdentity => {IdEnd}
    case LZero => {}
    case Container(sources, _, _, _) => sources
  }

  function Sinks(t: LTerm): set<Endpoint>
  {
    match t
    case LIdentity => {IdEnd}
    case LZero => {}
    case Container(_, sinks, _, _) => sinks
  }

  function Operations(t: LTerm): set<FreezedFnc>
  {
    match t
    case Container(_, _, operations, _) => operations
    case _ => {}
  }

  /** `is_identity`: true for `I` only, Zero and Container answer False. */
  predicate IsIdentity(t: LTerm)
  {
    t.LIdentity?
  }

  /** `is_zero`: `O`, or a Container whose three sets are all empty. */
  predicate IsZero(t: LTerm)
  {
    match t
    case LIdentity => false
    case LZero => true
    case Container(sources, sinks, operations, _) => |sinks| == 0 && |sources| == 0 && |operations| == 0
  }

  /** Every kind of term is zero exactly when it carries no endpoint and no operation. */
  lemma IsZeroMeansEmpty(t: LTerm)
    ensures IsZero(t) <==> Sources(t) == {} && Sinks(t) == {} && Operations(t) == {}
  {
  }

  /** Which of an item's boundary sets is meant. */
  datatype Side = SourceSide | SinkSide

  /** The endpoints an item contributes: a plain value itself, a term its own set. */
  function ItemEnds(item: Item, side: Side): set<Endpoint>
  {
    match item
    case Num(n) => {Atom(n)}
    case Part(t) => if side == SourceSide then Sources(t) else Sinks(t)
  }

  function ItemsEnds(items: seq<Item>, side: Side): set<Endpoint>
  {
    if |items| == 0 then {} else ItemsEnds(items[..|items| - 1], side) + ItemEnds(items[|items| - 1], side)
  }

  function ItemsOperations(items: seq<Item>): set<FreezedFnc>
  {
    if |items| == 0 then {}
    else ItemsOperations(items[..|items| - 1]) + (if items[|items| - 1].Part? then Operations(items[|items| - 1].term) else {})
  }

  lemma {:induction false} ItemsEndsMembers(items: seq<Item>, side: Side)
    ensures forall e :: e in ItemsEnds(items, side) <==> exists i :: 0 <= i < |items| && e in ItemEnds(items[i], side)
  {
    if |items| > 0 {
      var front := items[..|items| - 1];
      ItemsEndsMembers(front, side);
      assert ItemsEnds(items, side) == ItemsEnds(front, side) + ItemEnds(items[|items| - 1], side);
      forall e | e in ItemsEnds(items, side)
        ensures exists i :: 0 <= i < |items| && e in ItemEnds(items[i], side)
      {
        if e !in ItemEnds(items[|items| - 1], side) {
          var i :| 0 <= i < |front| && e in ItemEnds(front[i], side);
          assert items[i] == front[i];
        }
      }
      forall e | exists i :: 0 <= i < |items| && e in ItemEnds(items[i], side)
        ensures e in ItemsEnds(items, side)
      {
        var i :| 0 <= i < |items| && e in ItemEnds(items[i], side);
        if i < |front| {
          assert front[i] == items[i];
        }
      }
    }
  }

  lemma {:induction false} ItemsOperationsMembers(items: seq<Item>)
    ensures forall f :: f in ItemsOperations(items) <==>
      exists i :: 0 <= i < |items| && items[i].Part? && f in Operations(items[i].term)
  {
    if |items| > 0 {
      var front := items[..|items| - 1];
      ItemsOperationsMembers(front);
      assert ItemsOperations(items) == ItemsOperations(front)
        + (if items[|items| - 1].Part? then Operations(items[|items| - 1].term) else {});
      forall f | f in ItemsOperations(items)
        ensures exists i :: 0 <= i < |items| && items[i].Part? && f in Operations(items[i].term)
      {
        if !(items[|items| - 1].Part? && f in Operations(items[|items| - 1].term)) {
          var i :| 0 <= i < |front| && front[i].Part? && f in Operations(front[i].term);
          assert items[i] == front[i];
        }
      }
      forall f | exists i :: 0 <= i < |items| && items[i].Part? && f in Operations(items[i].term)
        ensures f in ItemsOperations(items)
      {
        var i :| 0 <= i < |items| && items[i].Part? && f in Operations(items[i].term);
        if i < |front| {
          assert front[i] == items[i];
        }
      }
    }
  }

  /** The sets and printed items of `Container(items=..., sources=..., sinks=..., operations=..., processeditems=...)`. */
  function NewContainer(
    items: seq<Item>,
    sources: set<Endpoint>,
    sinks: set<Endpoint>,
    operations: set<FreezedFnc>,
    processed: seq<Piece>): LTerm
  {
    Container(
      sources + ItemsEnds(items, SourceSide),
      sinks + ItemsEnds(items, SinkSide),
      operations + ItemsOperations(items),
      seq(|items|, i requires 0 <= i < |items| => Given(items[i])) + processed)
  }

  /**
   * A Container holds the sets it was given, every plain item as both a source and a sink, and
   * the three sets of every term item; it prints its items before the given pieces.
   */
  lemma NewContainerMembers(
    items: seq<Item>,
    sources: set<Endpoint>,
    sinks: set<Endpoint>,
    operations: set<FreezedFnc>,
    processed: seq<Piece>)
    ensures var r := NewContainer(items, sources, sinks, operations, processed);
      && (forall e :: e in r.sources <==> e in sources || exists i :: 0 <= i < |items| && e in ItemEnds(items[i], SourceSide))
      && (forall e :: e in r.sinks <==> e in sinks || exists i :: 0 <= i < |items| && e in ItemEnds(items[i], SinkSide))
      && (forall f :: f in r.operations <==>
            f in operations || exists i :: 0 <= i < |items| && items[i].Part? && f in Operations(items[i].term))
      && |r.processed| == |items| + |processed|
      && (forall i :: 0 <= i < |items| ==> r.processed[i] == Given(items[i]))
      && r.processed[|items|..] == processed
  {
    ItemsEndsMembers(items, SourceSide);
    ItemsEndsMembers(items, SinkSide);
    ItemsOperationsMembers(items);
  }

  /** `Container.__init__`: the given sets, then each item merged in turn. */
  method InitContainer(
    items: seq<Item>,
    sources: set<Endpoint>,
    sinks: set<Endpoint>,
    operations: set<FreezedFnc>,
    processed: seq<Piece>) returns (r: LTerm)
    ensures r == NewContainer(items, sources, sinks, operations, processed)
  {
    var s, k, o := sources, sinks, operations;
    for i := 0 to |items|
      invariant s == sources + ItemsEnds(items[..i], SourceSide)
      invariant k == sinks + ItemsEnds(items[..i], SinkSide)
      invariant o == operations + ItemsOperations(items[..i])
    {
      assert items[..i + 1][..i] == items[..i];
      match items[i]
      case Part(t) =>
        s := s + Sources(t);
        k := k + Sinks(t);
        o := o + Operations(t);
      case Num(n) =>
        s := s + {Atom(n)};
        k := k + {Atom(n)};
    }
    assert items[..|items|] == items;
    r := Container(s, k, o, seq(|items|, i requires 0 <= i < |items| => Given(items[i])) + processed);
  }

  /** A Container built without items holds exactly the sets and pieces it is given. */
  lemma NoItemsContainer(sources: set<Endpoint>, sinks: set<Endpoint>, operations: set<FreezedFnc>, processed: seq<Piece>)
    ensures NewContainer([], sources, sinks, operations, processed) == Container(sources, sinks, operations, processed)
  {
    var r := NewContainer([], sources, sinks, operations, processed);
    assert r.processed[0..] == processed;
  }

  /** `C(*things)`: a Container of the given items and nothing else. */
  function C(things: seq<Item>): LTerm
  {
    NewContainer(things, {}, {}, {}, [])
  }

  /** `str(term)`: `I`, `O`, or `C(` and the printed items joined by commas and `)`. */
  function Print(t: LTerm): string
  {
    match t
    case LIdentity => "I"
    case LZero => "O"
    case Container(_, _, _, processed) => "C(" + Join(",", PrintPieces(processed)) + ")"
  }

  function PrintPieces(ps: seq<Piece>): (r: seq<string>)
    ensures |r| == |ps|
  {
    if |ps| == 0 then [] else [PrintPiece(ps[0])] + PrintPieces(ps[1..])
  }

  /** A number as `str` prints it, a term by `Print`, a sign in quotes as its `str` does. */
  function PrintPiece(p: Piece): string
  {
    match p
    case Given(Num(n)) => IntToString(n)
    case Given(Part(t)) => Print(t)
    case Sign(op) => ['\'', op, '\'']
  }

  /** How a Container built by an operator prints: `C(left,'op',right)`. */
  lemma PrintOperatorPieces(a: LTerm, op: char, b: LTerm)
    ensures Join(",", PrintPieces([Given(Part(a)), Sign(op), Given(Part(b))]))
      == Print(a) + "," + (['\'', op, '\''] + "," + Print(b))
  {
    var sign := ['\'', op, '\''];
    var last := [Given(Part(b))];
    assert last[1..] == [];
    assert PrintPieces(last) == [Print(b)];
    var rest := [Sign(op), Given(Part(b))];
    assert rest[1..] == last;
    assert PrintPieces(rest) == [sign, Print(b)];
    var ps := [Given(Part(a)), Sign(op), Given(Part(b))];
    assert ps[1..] == rest;
    assert PrintPieces(ps) == [Print(a), sign, Print(b)];
    assert [Print(a), sign, Print(b)][1..] == [sign, Print(b)];
    assert [sign, Print(b)][1..] == [Print(b)];
    assert Join(",", [sign, Print(b)]) == sign + "," + Print(b);
  }

  /** A node `a op b` prints as `C(a,'op',b)`, where `mid` is the quoted operator between commas. */
  lemma PrintOperatorNode(t: LTerm, a: LTerm, op: char, b: LTerm, mid: string)
    requires t.Container? && t.processed == [Given(Part(a)), Sign(op), Given(Part(b))]
    requires mid == ",'" + [op] + "',"
    ensures Print(t) == "C(" + Print(a) + mid + Print(b) + ")"
  {
    PrintOperatorPieces(a, op, b);
    NodeText(Print(a), Print(b), op, mid, Join(",", PrintPieces(t.processed)));
  }

  lemma NodeText(x: string, y: string, op: char, mid: string, joined: string)
    requires mid == ",'" + [op] + "'," && joined == x + "," + (['\'', op, '\''] + "," + y)
    ensures "C(" + joined + ")" == "C(" + x + mid + y + ")"
  {
    assert joined == x + mid + y;
  }

  /** `Identity.__eq__` (inherited by Zero and Container): the printed texts are equal. */
  predicate LEq(a: LTerm, b: LTerm)
  {
    Print(a) == Print(b)
  }

  /** `Identity.__lt__`: the printed texts in string order. */
  predicate LLess(a: LTerm, b: LTerm)
  {
    StrLess(Print(a), Print(b))
  }

  /** `<` is a strict order, total up to `==`. */
  lemma LLessIsStrictOrder(a: LTerm, b: LTerm, c: LTerm)
    ensures !LLess(a, a)
    ensures LLess(a, b) && LLess(b, c) ==> LLess(a, c)
    ensures LEq(a, b) || LLess(a, b) || LLess(b, a)
  {
    StrLessIrreflexive(Print(a));
    if LLess(a, b) && LLess(b, c) {
      StrLessTransitive(Print(a), Print(b), Print(c));
    }
    StrLessTotal(Print(a), Print(b));
  }

  /** `Identity.__add__` (inherited by all terms): the three unions, printed as `C(a,'+',b)`. */
  function Plus(a: LTerm, b: LTerm): LTerm
  {
    NewContainer([], Sources(a) + Sources(b), Sinks(a) + Sinks(b), Operations(a) + Operations(b),
      [Given(Part(a)), Sign('+'), Given(Part(b))])
  }

  /** The sets of `a - b`: each of a's sets without b's elements, printed as `C(a,'-',b)`. */
  function Minus(a: LTerm, b: LTerm): LTerm
  {
    NewContainer([], Sources(a) - Sources(b), Sinks(a) - Sinks(b), Operations(a) - Operations(b),
      [Given(Part(a)), Sign('-'), Given(Part(b))])
  }

  /** `Identity.__sub__`: three copies with b's elements discarded, then a new Container. */
  method Sub(a: LTerm, b: LTerm) returns (r: LTerm)
    ensures r == Minus(a, b)
  {
    var sinks := DiscardBFromA(Sinks(a), Sinks(b));
    var sources := DiscardBFromA(Sources(a), Sources(b));
    var operations := DiscardBFromA(Operations(a), Operations(b));
    r := InitContainer([], sources, sinks, operations, [Given(Part(a)), Sign('-'), Given(Part(b))]);
  }

  /** `+` unites each of the three sets and prints as `C(a,'+',b)`. */
  lemma PlusUnites(a: LTerm, b: LTerm)
    ensures Sources(Plus(a, b)) == Sources(a) + Sources(b) && Sinks(Plus(a, b)) == Sinks(a) + Sinks(b)
    ensures Operations(Plus(a, b)) == Operations(a) + Operations(b)
    ensures Print(Plus(a, b)) == "C(" + Print(a) + ",'+'," + Print(b) + ")"
  {
    NoItemsContainer(Sources(a) + Sources(b), Sinks(a) + Sinks(b), Operations(a) + Operations(b),
      [Given(Part(a)), Sign('+'), Given(Part(b))]);
    PrintOperatorNode(Plus(a, b), a, '+', b, ",'+',");
  }

  /** `-` discards b's elements from each of a's sets and prints as `C(a,'-',b)`. */
  lemma MinusDiscards(a: LTerm, b: LTerm)
    ensures Sources(Minus(a, b)) == Sources(a) - Sources(b) && Sinks(Minus(a, b)) == Sinks(a) - Sinks(b)
    ensures Operations(Minus(a, b)) == Operations(a) - Operations(b)
    ensures Print(Minus(a, b)) == "C(" + Print(a) + ",'-'," + Print(b) + ")"
  {
    NoItemsContainer(Sources(a) - Sources(b), Sinks(a) - Sinks(b), Operations(a) - Operations(b),
      [Given(Part(a)), Sign('-'), Given(Part(b))]);
    PrintOperatorNode(Minus(a, b), a, '-', b, ",'-',");
  }

  /** `a - a` is zero whatever `a` is, yet it is not `== O`: it prints as a Container. */
  lemma MinusSelfIsZeroButNotO(a: LTerm)
    ensures IsZero(Minus(a, a))
    ensures !LEq(Minus(a, a), LZero)
  {
    MinusDiscards(a, a);
  }

  /** The connections `*` adds: every source paired with every sink, Identity endpoints skipped. */
  function Cross(sources: set<Endpoint>, sinks: set<Endpoint>): (r: set<FreezedFnc>)
    ensures forall f :: f in r <==>
      exists s, t :: s in sources && t in sinks && s != IdEnd && t != IdEnd && f == FreezedFnc(LConnector, [s, t])
  {
    set s, t | s in sources && t in sinks && s != IdEnd && t != IdEnd :: FreezedFnc(LConnector, [s, t])
  }

  /** The printed pieces of a product. */
  function TimesPieces(a: LTerm, b: LTerm): seq<Piece>
  {
    [Given(Part(a)), Sign('*'), Given(Part(b))]
  }

  /**
   * `a * b`. `I * b` is `b` itself. `O * I` is `O`, otherwise `O * b` is a copy of `b` without
   * sinks. `c * I` is `c` itself, `c * z` for a zero `z` is a copy of `c` without sources, and
   * otherwise the product connects c's sources to b's sinks and substitutes Identity endpoints.
   */
  function Times(a: LTerm, b: LTerm): LTerm
  {
    match a
    case LIdentity => b
    case LZero =>
      if IsIdentity(b) then a
      else if b.Container? then b.(sinks := {}, processed := TimesPieces(a, b))
      else LZero
    case Container(sources, sinks, operations, _) =>
      if IsIdentity(b) then a
      else if IsZero(b) then a.(sources := {})
      else NewContainer([], Term.Substitute(Sources(b), sources), Term.Substitute(sinks, Sinks(b)),
        operations + Operations(b) + Cross(sources, Sinks(b)), TimesPieces(a, b))
  }

  /** `Identity.__mul__`, `Zero.__mul__` and `Container.__mul__`, dispatched on the left operand. */
  method Mul(a: LTerm, b: LTerm) returns (r: LTerm)
    ensures r == Times(a, b)
  {
    if a.LIdentity? {
      return b;
    }
    if a.LZero? {
      if IsIdentity(b) {
        return a;
      }
      if b.Container? {
        r := b.(sinks := {}, processed := TimesPieces(a, b));
      } else {
        r := LZero;
      }
      return;
    }
    if IsIdentity(b) {
      return a;
    }
    if IsZero(b) {
      return a.(sources := {});
    }
    var newOperations := NewCalls(a.sources, Sinks(b));
    var newSources := Term.SubstituteIdentity(Sources(b), a.sources);
    var newSinks := Term.SubstituteIdentity(a.sinks, Sinks(b));
    var operations := a.operations + Operations(b) + newOperations;
    r := InitContainer([], newSources, newSinks, operations, TimesPieces(a, b));
  }

  /** The first loop of `Container.__mul__`: each source that is not `I` connected to each sink that is not `I`. */
  method NewCalls(sources: set<Endpoint>, sinks: set<Endpoint>) returns (calls: set<FreezedFnc>)
    ensures calls == Cross(sources, sinks)
  {
    calls := {};
    var sourcesLeft := sources;
    while sourcesLeft != {}
      invariant sourcesLeft <= sources
      invariant calls == Cross(sources - sourcesLeft, sinks)
      decreases sourcesLeft
    {
      var source :| source in sourcesLeft;
      if source != IdEnd {
        var sinksLeft := sinks;
        ghost var before := calls;
        while sinksLeft != {}
          invariant sinksLeft <= sinks
          invariant calls == before + Cross({source}, sinks - sinksLeft)
          decreases sinksLeft
        {
          var sink :| sink in sinksLeft;
          if sink != IdEnd {
            calls := calls + {FreezedFnc(LConnector, [source, sink])};
          }
          sinksLeft := sinksLeft - {sink};
        }
      }
      sourcesLeft := sourcesLeft - {source};
    }
  }

  /**
   * The general product of a Container `a` and a term `b` that is neither `I` nor zero: exactly
   * the pairs of a's sources and b's sinks are connected, b's `I` source stands for a's sources
   * and a's `I` sink for b's sinks.
   */
  lemma GeneralTimes(a: LTerm, b: LTerm)
    requires a.Container? && !IsIdentity(b) && !IsZero(b)
    ensures var r := Times(a, b);
      && (forall e :: e in Sources(r) <==> (e in Sources(b) && e != IdEnd) || (IdEnd in Sources(b) && e in a.sources))
      && (forall e :: e in Sinks(r) <==> (e in a.sinks && e != IdEnd) || (IdEnd in a.sinks && e in Sinks(b)))
      && (forall f :: f in Operations(r) <==>
            || f in a.operations
            || f in Operations(b)
            || exists s, t :: s in a.sources && t in Sinks(b) && s != IdEnd && t != IdEnd && f == FreezedFnc(LConnector, [s, t]))
  {
    GeneralTimesSets(a, b);
  }

  /** The general product prints as `C(a,'*',b)`. */
  lemma TimesPrints(a: LTerm, b: LTerm)
    requires a.Container? && !IsIdentity(b) && !IsZero(b)
    ensures Print(Times(a, b)) == "C(" + Print(a) + ",'*'," + Print(b) + ")"
  {
    var r := Times(a, b);
    NoItemsContainer(Term.Substitute(Sources(b), a.sources), Term.Substitute(a.sinks, Sinks(b)),
      a.operations + Operations(b) + Cross(a.sources, Sinks(b)), TimesPieces(a, b));
    assert r.processed == TimesPieces(a, b);
    PrintOperatorNode(r, a, '*', b, ",'*',");
  }

  /** `I * x` is x itself, `c * I` is c itself for a Container c, and `O * I` is `O`. */
  lemma IdentityIsUnit(x: LTerm)
    ensures Times(LIdentity, x) == x
    ensures x.Container? ==> Times(x, LIdentity) == x
    ensures Times(LZero, LIdentity) == LZero && Times(LIdentity, LIdentity) == LIdentity
  {
  }

  /**
   * For a Container c, `c * O` keeps c's sinks and operations and has no sources, yet it is
   * `== c`: it prints as c does. `O * c` keeps c's sources and operations and has no sinks.
   */
  lemma ZeroCutsOneSide(c: LTerm)
    requires c.Container?
    ensures Sources(Times(c, LZero)) == {} && Sinks(Times(c, LZero)) == c.sinks
    ensures Operations(Times(c, LZero)) == c.operations && LEq(Times(c, LZero), c)
    ensures Sinks(Times(LZero, c)) == {} && Sources(Times(LZero, c)) == c.sources
    ensures Operations(Times(LZero, c)) == c.operations
  {
  }

  /** Whatever follows `c * O`, no connection is made from it: `O` works as a terminator. */
  lemma {:induction false} ZeroTerminates(c: LTerm, b: LTerm)
    requires c.Container?
    ensures Operations(Times(Times(c, LZero), b)) <= c.operations + Operations(b)
  {
    var left := Times(c, LZero);
    assert left.sources == {};
    if !IsIdentity(b) && !IsZero(b) {
      GeneralTimes(left, b);
    }
  }

  /** `==` compares printed text, not sets: equal sets may differ, different sets may be equal. */
  lemma LegacyEqualityIsTextual()
    ensures Sources(C([Num(1), Num(2)])) == Sources(C([Num(2), Num(1)]))
    ensures !LEq(C([Num(1), Num(2)]), C([Num(2), Num(1)]))
    ensures LEq(Times(C([Num(1)]), LZero), C([Num(1)]))
    ensures Sources(Times(C([Num(1)]), LZero)) != Sources(C([Num(1)]))
  {
    NewContainerMembers([Num(1), Num(2)], {}, {}, {}, []);
    NewContainerMembers([Num(2), Num(1)], {}, {}, {}, []);
    NewContainerMembers([Num(1)], {}, {}, {}, []);
    assert C([Num(1), Num(2)]).processed == [Given(Num(1)), Given(Num(2))];
    assert C([Num(2), Num(1)]).processed == [Given(Num(2)), Given(Num(1))];
    assert Print(C([Num(1), Num(2)]))[2] == '1';
    assert Atom(1) in Sources(C([Num(1)]));
  }

  /** The sets of the general product, as the three loops of `Container.__mul__` build them. */
  lemma GeneralTimesSets(a: LTerm, b: LTerm)
    requires a.Container? && !IsIdentity(b) && !IsZero(b)
    ensures Sources(Times(a, b)) == Term.Substitute(Sources(b), a.sources)
    ensures Sinks(Times(a, b)) == Term.Substitute(a.sinks, Sinks(b))
    ensures Operations(Times(a, b)) == a.operations + Operations(b) + Cross(a.sources, Sinks(b))
  {
    NoItemsContainer(Term.Substitute(Sources(b), a.sources), Term.Substitute(a.sinks, Sinks(b)),
      a.operations + Operations(b) + Cross(a.sources, Sinks(b)), TimesPieces(a, b));
  }

  /** The connection `s -> t` as the connector records it. */
  function Call(s: int, t: int): FreezedFnc
  {
    FreezedFnc(LConnector, [Atom(s), Atom(t)])
  }

  /** `C(x)` of a plain value. */
  lemma NumberContainer(x: int)
    ensures C([Num(x)]) == Container({Atom(x)}, {Atom(x)}, {}, [Given(Num(x))])
  {
    var items := [Num(x)];
    assert items[..0] == [];
    assert ItemsEnds(items, SourceSide) == {Atom(x)};
    assert ItemsEnds(items, SinkSide) == {Atom(x)};
    assert ItemsOperations(items) == {};
    var r := C(items);
    assert |r.processed| == 1 && r.processed[0] == Given(Num(x));
  }

  /** `C(x, y)` of plain values. */
  lemma NumberPair(x: int, y: int)
    ensures C([Num(x), Num(y)]) == Container({Atom(x), Atom(y)}, {Atom(x), Atom(y)}, {}, [Given(Num(x)), Given(Num(y))])
  {
    var items := [Num(x), Num(y)];
    assert items[..1] == [Num(x)];
    assert [Num(x)][..0] == [];
    assert ItemsEnds([Num(x)], SourceSide) == {Atom(x)};
    assert ItemsEnds([Num(x)], SinkSide) == {Atom(x)};
    assert ItemsOperations([Num(x)]) == {};
    assert ItemsEnds(items, SourceSide) == {Atom(x), Atom(y)};
    assert ItemsEnds(items, SinkSide) == {Atom(x), Atom(y)};
    assert ItemsOperations(items) == {};
    var r := C(items);
    assert |r.processed| == 2 && r.processed[0] == Given(Num(x)) && r.processed[1] == Given(Num(y));
  }

  lemma CrossOfPairs(w: int, x: int, y: int, z: int)
    ensures Cross({Atom(w), Atom(x)}, {Atom(y), Atom(z)}) == {Call(w, y), Call(w, z), Call(x, y), Call(x, z)}
  {
    var r := Cross({Atom(w), Atom(x)}, {Atom(y), Atom(z)});
    forall f | f in r
      ensures f in {Call(w, y), Call(w, z), Call(x, y), Call(x, z)}
    {
      var s, t :| s in {Atom(w), Atom(x)} && t in {Atom(y), Atom(z)} && f == FreezedFnc(LConnector, [s, t]);
    }
    assert Call(w, y) in r by { assert FreezedFnc(LConnector, [Atom(w), Atom(y)]) == Call(w, y); }
    assert Call(w, z) in r by { assert FreezedFnc(LConnector, [Atom(w), Atom(z)]) == Call(w, z); }
    assert Call(x, y) in r by { assert FreezedFnc(LConnector, [Atom(x), Atom(y)]) == Call(x, y); }
    assert Call(x, z) in r by { assert FreezedFnc(LConnector, [Atom(x), Atom(z)]) == Call(x, z); }
  }

  /** `(C(1,2) * C(3,4)).evaluate()` calls 1 -> 3, 1 -> 4, 2 -> 3 and 2 -> 4. */
  lemma TwoByTwoConnections(w: int, x: int, y: int, z: int)
    ensures Operations(Times(C([Num(w), Num(x)]), C([Num(y), Num(z)]))) == {Call(w, y), Call(w, z), Call(x, y), Call(x, z)}
  {
    NumberPair(w, x);
    NumberPair(y, z);
    GeneralTimesSets(C([Num(w), Num(x)]), C([Num(y), Num(z)]));
    CrossOfPairs(w, x, y, z);
  }

  /** `I * C(1)`, `C(1) * I` and `C(1) * O` all print as `C(1)`; `((C(1) * O) * C(2))` makes no connection. */
  lemma UnitAndZeroDoctests()
    ensures Print(Times(LIdentity, C([Num(1)]))) == "C(1)"
    ensures Print(Times(C([Num(1)]), LIdentity)) == "C(1)"
    ensures Print(Times(C([Num(1)]), LZero)) == "C(1)"
    ensures Operations(Times(Times(C([Num(1)]), LZero), C([Num(2)]))) == {}
  {
    NumberContainer(1);
    NumberContainer(2);
    assert Print(C([Num(1)])) == "C(1)";
    ZeroTerminates(C([Num(1)]), C([Num(2)]));
  }

  /** `C(x)` prints as `C(x)`. */
  lemma SinglePrints(x: nat)
    requires x < 10
    ensures Print(C([Num(x)])) == "C(" + [DigitChar(x)] + ")"
  {
    NumberContainer(x);
    var ps := [Given(Num(x))];
    assert ps[1..] == [];
    assert PrintPieces(ps) == [[DigitChar(x)]];
  }

  /** `C(x,y)` prints as `C(x,y)`. */
  lemma PairPrints(x: nat, y: nat)
    requires x < 10 && y < 10
    ensures Print(C([Num(x), Num(y)])) == "C(" + [DigitChar(x), ',', DigitChar(y)] + ")"
  {
    NumberPair(x, y);
    var ps := [Given(Num(x)), Given(Num(y))];
    assert ps[1..] == [Given(Num(y))];
    assert ps[1..][1..] == [];
    assert PrintPieces(ps[1..]) == [[DigitChar(y)]];
    assert PrintPieces(ps) == [[DigitChar(x)], [DigitChar(y)]];
    assert [[DigitChar(x)], [DigitChar(y)]][1..] == [[DigitChar(y)]];
    assert Join(",", [[DigitChar(x)], [DigitChar(y)]]) == [DigitChar(x), ',', DigitChar(y)];
  }

  /** `C(1,2) + C(1,4)` prints as `C(C(1,2),'+',C(1,4))` and `C(1,2) - C(1,4)` as `C(C(1,2),'-',C(1,4))`. */
  lemma SumAndDifferencePrint(w: nat, x: nat, y: nat, z: nat)
    requires w < 10 && x < 10 && y < 10 && z < 10
    ensures var left, right := C([Num(w), Num(x)]), C([Num(y), Num(z)]);
      && Print(Plus(left, right)) == "C(C(" + [DigitChar(w), ',', DigitChar(x)] + "),'+',C(" + [DigitChar(y), ',', DigitChar(z)] + "))"
      && Print(Minus(left, right)) == "C(C(" + [DigitChar(w), ',', DigitChar(x)] + "),'-',C(" + [DigitChar(y), ',', DigitChar(z)] + "))"
  {
    PairPrints(w, x);
    PairPrints(y, z);
    PlusUnites(C([Num(w), Num(x)]), C([Num(y), Num(z)]));
    MinusDiscards(C([Num(w), Num(x)]), C([Num(y), Num(z)]));
  }

  /** `C(x) * C(y)` prints as `C(C(x),'*',C(y))`; for example `C(1) * C(2)` as `C(C(1),'*',C(2))`. */
  lemma ProductPrints(x: nat, y: nat)
    requires x < 10 && y < 10
    ensures Print(Times(C([Num(x)]), C([Num(y)]))) == "C(C(" + [DigitChar(x)] + "),'*',C(" + [DigitChar(y)] + "))"
  {
    var cx, cy := C([Num(x)]), C([Num(y)]);
    SinglePrints(x);
    SinglePrints(y);
    assert cx.Container? && !IsIdentity(cy) && !IsZero(cy) by {
      NumberContainer(x);
      NumberContainer(y);
    }
    TimesPrints(cx, cy);
    NestedText(Print(cx), Print(cy), DigitChar(x), DigitChar(y));
  }

  lemma NestedText(p: string, q: string, dx: char, dy: char)
    requires p == "C(" + [dx] + ")" && q == "C(" + [dy] + ")"
    ensures "C(" + p + ",'*'," + q + ")" == "C(C(" + [dx] + "),'*',C(" + [dy] + "))"
  {
  }

  /** `C(s, t)` of two terms merges their sets. */
  lemma TermPair(s: LTerm, t: LTerm)
    ensures Sources(C([Part(s), Part(t)])) == Sources(s) + Sources(t)
    ensures Sinks(C([Part(s), Part(t)])) == Sinks(s) + Sinks(t)
    ensures Operations(C([Part(s), Part(t)])) == Operations(s) + Operations(t)
  {
    var items := [Part(s), Part(t)];
    assert items[..1] == [Part(s)];
    assert [Part(s)][..0] == [];
    assert ItemsEnds([Part(s)], SourceSide) == Sources(s);
    assert ItemsEnds([Part(s)], SinkSide) == Sinks(s);
    assert ItemsOperations([Part(s)]) == Operations(s);
  }

  /** An Identity endpoint on either side takes no part in the connections. */
  lemma CrossSkipsIdentity(sources: set<Endpoint>, sinks: set<Endpoint>)
    ensures Cross(sources, sinks) == Cross(sources - {IdEnd}, sinks - {IdEnd})
  {
  }

  lemma CrossOfFourAndOne(a: int, b: int, c: int, d: int, e: int)
    ensures Cross({Atom(a), Atom(b), Atom(c), Atom(d)}, {Atom(e)}) == {Call(a, e), Call(b, e), Call(c, e), Call(d, e)}
  {
    var r := Cross({Atom(a), Atom(b), Atom(c), Atom(d)}, {Atom(e)});
    forall f | f in r
      ensures f in {Call(a, e), Call(b, e), Call(c, e), Call(d, e)}
    {
      var s, t :| s in {Atom(a), Atom(b), Atom(c), Atom(d)} && t in {Atom(e)} && f == FreezedFnc(LConnector, [s, t]);
    }
    assert Call(a, e) in r by { assert FreezedFnc(LConnector, [Atom(a), Atom(e)]) == Call(a, e); }
    assert Call(b, e) in r by { assert FreezedFnc(LConnector, [Atom(b), Atom(e)]) == Call(b, e); }
    assert Call(c, e) in r by { assert FreezedFnc(LConnector, [Atom(c), Atom(e)]) == Call(c, e); }
    assert Call(d, e) in r by { assert FreezedFnc(LConnector, [Atom(d), Atom(e)]) == Call(d, e); }
  }

  /** A product whose right operand has an `I` among its endpoints keeps the left's sources. */
  lemma PassThroughSets(p: LTerm, q: LTerm, a: int, b: int, c: int, d: int)
    requires p.Container? && p.sources == {Atom(a), Atom(b)} && p.operations == {}
    requires Sources(q) == {Atom(c), Atom(d), IdEnd} && Sinks(q) == {Atom(c), Atom(d), IdEnd} && Operations(q) == {}
    ensures Sources(Times(p, q)) == {Atom(a), Atom(b), Atom(c), Atom(d)}
    ensures Operations(Times(p, q)) == {Call(a, c), Call(a, d), Call(b, c), Call(b, d)}
  {
    assert Atom(c) in Sources(q);
    GeneralTimesSets(p, q);
    PassThroughSources(Sources(q), p.sources, a, b, c, d);
    PassThroughCalls(p.sources, Sinks(q), a, b, c, d);
  }

  lemma PassThroughSources(s: set<Endpoint>, replacement: set<Endpoint>, a: int, b: int, c: int, d: int)
    requires s == {Atom(c), Atom(d), IdEnd} && replacement == {Atom(a), Atom(b)}
    ensures Term.Substitute(s, replacement) == {Atom(a), Atom(b), Atom(c), Atom(d)}
  {
    assert forall e :: e in Term.Substitute(s, replacement) <==> e in {Atom(a), Atom(b), Atom(c), Atom(d)};
  }

  lemma PassThroughCalls(sources: set<Endpoint>, sinks: set<Endpoint>, a: int, b: int, c: int, d: int)
    requires sources == {Atom(a), Atom(b)} && sinks == {Atom(c), Atom(d), IdEnd}
    ensures Cross(sources, sinks) == {Call(a, c), Call(a, d), Call(b, c), Call(b, d)}
  {
    CrossSkipsIdentity(sources, sinks);
    assert sinks - {IdEnd} == {Atom(c), Atom(d)};
    assert sources - {IdEnd} == sources;
    CrossOfPairs(a, b, c, d);
  }

  /** `C(1,2) * C(C(3,4), I)`: 1 and 2 reach 3 and 4, and through the `I` item they stay sources. */
  lemma PassThroughProduct(a: int, b: int, c: int, d: int)
    ensures var pq := Times(C([Num(a), Num(b)]), C([Part(C([Num(c), Num(d)])), Part(LIdentity)]));
      && Sources(pq) == {Atom(a), Atom(b), Atom(c), Atom(d)}
      && Operations(pq) == {Call(a, c), Call(a, d), Call(b, c), Call(b, d)}
  {
    var cd := C([Num(c), Num(d)]);
    NumberPair(a, b);
    NumberPair(c, d);
    TermPair(cd, LIdentity);
    PassThroughSets(C([Num(a), Num(b)]), C([Part(cd), Part(LIdentity)]), a, b, c, d);
  }

  /**
   * `(C(1,2) * C(C(3,4), I) * C(5)).evaluate()` calls the eight connections 1 -> 3, 1 -> 4,
   * 1 -> 5, 2 -> 3, 2 -> 4, 2 -> 5, 3 -> 5 and 4 -> 5: the `I` item lets 1 and 2 pass through.
   */
  lemma IdentityItemPassesThrough(a: int, b: int, c: int, d: int, e: int)
    ensures Operations(Times(Times(C([Num(a), Num(b)]), C([Part(C([Num(c), Num(d)])), Part(LIdentity)])), C([Num(e)])))
      == {Call(a, c), Call(a, d), Call(b, c), Call(b, d), Call(a, e), Call(b, e), Call(c, e), Call(d, e)}
  {
    var pq := Times(C([Num(a), Num(b)]), C([Part(C([Num(c), Num(d)])), Part(LIdentity)]));
    var five := C([Num(e)]);
    PassThroughProduct(a, b, c, d);
    assert pq.Container?;
    NumberContainer(e);
    GeneralTimesSets(pq, five);
    CrossOfFourAndOne(a, b, c, d, e);
  }

  /** `C(t)` of a single term carries that term's sources, sinks and operations. */
  lemma SingleTerm(t: LTerm)
    ensures Sources(C([Part(t)])) == Sources(t) && Sinks(C([Part(t)])) == Sinks(t)
    ensures Operations(C([Part(t)])) == Operations(t)
  {
    assert [Part(t)][..0] == [];
    assert ItemsEnds([Part(t)], SourceSide) == Sources(t);
    assert ItemsEnds([Part(t)], SinkSide) == Sinks(t);
    assert ItemsOperations([Part(t)]) == Operations(t);
    assert C([Part(t)]).operations == {} + ItemsOperations([Part(t)]);
  }

  /** `C(s, t, u)` of three terms merges their sets. */
  lemma TermTriple(s: LTerm, t: LTerm, u: LTerm)
    ensures Sources(C([Part(s), Part(t), Part(u)])) == Sources(s) + Sources(t) + Sources(u)
    ensures Sinks(C([Part(s), Part(t), Part(u)])) == Sinks(s) + Sinks(t) + Sinks(u)
    ensures Operations(C([Part(s), Part(t), Part(u)])) == Operations(s) + Operations(t) + Operations(u)
  {
    var items := [Part(s), Part(t), Part(u)];
    assert items[..2] == [Part(s), Part(t)];
    assert items[..2][..1] == [Part(s)];
    assert [Part(s)][..0] == [];
    assert ItemsEnds([Part(s)], SourceSide) == Sources(s);
    assert ItemsEnds([Part(s)], SinkSide) == Sinks(s);
    assert ItemsOperations([Part(s)]) == Operations(s);
    assert ItemsEnds(items[..2], SourceSide) == Sources(s) + Sources(t);
    assert ItemsEnds(items[..2], SinkSide) == Sinks(s) + Sinks(t);
    assert ItemsOperations(items[..2]) == Operations(s) + Operations(t);
  }

  /** `C(O * C(2), C(3), C(4) * O)`: 2 only as a source, 4 only as a sink, 3 as both. */
  lemma ZeroSidedItems(b: int, c: int, d: int)
    ensures var x := C([Part(Times(LZero, C([Num(b)]))), Part(C([Num(c)])), Part(Times(C([Num(d)]), LZero))]);
      && Sources(x) == {Atom(b), Atom(c)} && Sinks(x) == {Atom(c), Atom(d)} && Operations(x) == {}
  {
    NumberContainer(b);
    NumberContainer(c);
    NumberContainer(d);
    ZeroCutsOneSide(C([Num(b)]));
    ZeroCutsOneSide(C([Num(d)]));
    TermTriple(Times(LZero, C([Num(b)])), C([Num(c)]), Times(C([Num(d)]), LZero));
  }

  /** A side without `I` is left as it is by the substitution. */
  lemma SubstituteWithoutIdentity(s: set<Endpoint>, replacement: set<Endpoint>)
    requires IdEnd !in s
    ensures Term.Substitute(s, replacement) == s
  {
    assert forall e :: e in Term.Substitute(s, replacement) <==> e in s;
  }

  /** `C(1) * C(O * C(2), C(3), C(4) * O)` on its sets: 1 reaches 3 and 4, 2 and 3 stay sources. */
  lemma ZeroSidedFirstProduct(one: LTerm, x: LTerm, a: int, b: int, c: int, d: int)
    requires one.Container? && one.sources == {Atom(a)} && one.operations == {}
    requires Sources(x) == {Atom(b), Atom(c)} && Sinks(x) == {Atom(c), Atom(d)} && Operations(x) == {}
    ensures Sources(Times(one, x)) == {Atom(b), Atom(c)}
    ensures Operations(Times(one, x)) == {Call(a, c), Call(a, d)}
  {
    assert Atom(b) in Sources(x);
    GeneralTimesSets(one, x);
    SubstituteWithoutIdentity(Sources(x), one.sources);
    CrossOfOneAndPair(one.sources, Sinks(x), a, c, d);
  }

  lemma CrossOfOneAndPair(sources: set<Endpoint>, sinks: set<Endpoint>, a: int, c: int, d: int)
    requires sources == {Atom(a)} && sinks == {Atom(c), Atom(d)}
    ensures Cross(sources, sinks) == {Call(a, c), Call(a, d)}
  {
    assert {Atom(a), Atom(a)} == sources;
    CrossOfPairs(a, a, c, d);
  }

  /** The product with `C(5)`: 2 and 3 reach 5. */
  lemma ZeroSidedSecondProduct(y: LTerm, five: LTerm, a: int, b: int, c: int, d: int, e: int)
    requires y.Container? && y.sources == {Atom(b), Atom(c)} && y.operations == {Call(a, c), Call(a, d)}
    requires Sources(five) == {Atom(e)} && Sinks(five) == {Atom(e)} && Operations(five) == {}
    ensures Operations(Times(y, five)) == {Call(a, c), Call(a, d), Call(b, e), Call(c, e)}
  {
    assert Atom(e) in Sources(five);
    GeneralTimesSets(y, five);
    CrossOfPairAndOne(y.sources, Sinks(five), b, c, e);
  }

  lemma CrossOfPairAndOne(sources: set<Endpoint>, sinks: set<Endpoint>, b: int, c: int, e: int)
    requires sources == {Atom(b), Atom(c)} && sinks == {Atom(e)}
    ensures Cross(sources, sinks) == {Call(b, e), Call(c, e)}
  {
    assert {Atom(e), Atom(e)} == sinks;
    CrossOfPairs(b, c, e, e);
  }

  /** The two products around the zero-sided items, on their sets alone. */
  lemma ZeroSidedChain(one: LTerm, x: LTerm, five: LTerm, a: int, b: int, c: int, d: int, e: int)
    requires one.Container? && one.sources == {Atom(a)} && one.operations == {}
    requires Sources(x) == {Atom(b), Atom(c)} && Sinks(x) == {Atom(c), Atom(d)} && Operations(x) == {}
    requires Sources(five) == {Atom(e)} && Sinks(five) == {Atom(e)} && Operations(five) == {}
    ensures Operations(Times(Times(one, x), five)) == {Call(a, c), Call(a, d), Call(b, e), Call(c, e)}
  {
    ZeroSidedFirstProduct(one, x, a, b, c, d);
    assert Atom(b) in Sources(x);
    var y := Times(one, x);
    assert y.Container? by { GeneralTimesSets(one, x); }
    ZeroSidedSecondProduct(y, five, a, b, c, d, e);
  }

  /**
   * `C(C(1) * C(O * C(2), C(3), C(4) * O) * C(5)).evaluate()` calls 1 -> 3, 1 -> 4, 2 -> 5 and
   * 3 -> 5: `O` on the left of 2 keeps 1 from reaching it, `O` on the right of 4 keeps 4 from 5.
   */
  lemma ZeroSidedConnections(a: int, b: int, c: int, d: int, e: int)
    ensures Operations(C([Part(Times(Times(C([Num(a)]),
      C([Part(Times(LZero, C([Num(b)]))), Part(C([Num(c)])), Part(Times(C([Num(d)]), LZero))])), C([Num(e)])))]))
      == {Call(a, c), Call(a, d), Call(b, e), Call(c, e)}
  {
    var x := C([Part(Times(LZero, C([Num(b)]))), Part(C([Num(c)])), Part(Times(C([Num(d)]), LZero))]);
    ZeroSidedItems(b, c, d);
    NumberContainer(a);
    NumberContainer(e);
    ZeroSidedChain(C([Num(a)]), x, C([Num(e)]), a, b, c, d, e);
    SingleTerm(Times(Times(C([Num(a)]), x), C([Num(e)])));
  }

  // ---------------------------------------------------------------- further doctests of the module text

  /**
   * A product whose left operand has no `I` sink and whose right operand has sinks but no `I`
   * source: a Container with b's sources, a's sinks, and a's sources connected to b's sinks.
   */
  lemma KnownProduct(a: LTerm, b: LTerm)
    requires a.Container? && !b.LIdentity? && Sinks(b) != {}
    requires IdEnd !in a.sinks && IdEnd !in Sources(b)
    ensures Times(a, b).Container?
    ensures Sources(Times(a, b)) == Sources(b) && Sinks(Times(a, b)) == a.sinks
    ensures Operations(Times(a, b)) == a.operations + Operations(b) + Cross(a.sources, Sinks(b))
  {
    IsZeroMeansEmpty(b);
    GeneralTimesSets(a, b);
    SubstituteWithoutIdentity(Sources(b), a.sources);
    SubstituteWithoutIdentity(a.sinks, Sinks(b));
  }

  lemma CrossOfOne(a: int, c: int)
    ensures Cross({Atom(a)}, {Atom(c)}) == {Call(a, c)}
  {
    assert {Atom(a), Atom(a)} == {Atom(a)} && {Atom(c), Atom(c)} == {Atom(c)};
    CrossOfPairs(a, a, c, c);
  }

  /**
   * `(C(1,2) * C(3,4) * C(5) + C(1,2) * C(5)).evaluate()`, with a, b, c, d, e for 1 to 5: the eight
   * calls a->c, a->d, a->e, b->c, b->d, b->e, c->e and d->e, as with the `I` item.
   */
  lemma SumOfChainsConnections(a: int, b: int, c: int, d: int, e: int)
    ensures var ab, cd, five := C([Num(a), Num(b)]), C([Num(c), Num(d)]), C([Num(e)]);
      Operations(Plus(Times(Times(ab, cd), five), Times(ab, five)))
      == {Call(a, c), Call(a, d), Call(b, c), Call(b, d), Call(a, e), Call(b, e), Call(c, e), Call(d, e)}
  {
    NumberPair(a, b);
    NumberPair(c, d);
    NumberContainer(e);
    SumOfChainsSets(C([Num(a), Num(b)]), C([Num(c), Num(d)]), C([Num(e)]), a, b, c, d, e);
  }

  lemma SumOfChainsSets(ab: LTerm, cd: LTerm, five: LTerm, a: int, b: int, c: int, d: int, e: int)
    requires ab == Container({Atom(a), Atom(b)}, {Atom(a), Atom(b)}, {}, [Given(Num(a)), Given(Num(b))])
    requires cd == Container({Atom(c), Atom(d)}, {Atom(c), Atom(d)}, {}, [Given(Num(c)), Given(Num(d))])
    requires five == Container({Atom(e)}, {Atom(e)}, {}, [Given(Num(e))])
    ensures Operations(Plus(Times(Times(ab, cd), five), Times(ab, five)))
      == {Call(a, c), Call(a, d), Call(b, c), Call(b, d), Call(a, e), Call(b, e), Call(c, e), Call(d, e)}
  {
    KnownProduct(ab, cd);
    CrossOfPairs(a, b, c, d);
    var abcd := Times(ab, cd);
    assert abcd.Container? && abcd.sources == {Atom(c), Atom(d)};
    KnownProduct(abcd, five);
    CrossOfPairAndOne({Atom(c), Atom(d)}, {Atom(e)}, c, d, e);
    KnownProduct(ab, five);
    CrossOfPairAndOne({Atom(a), Atom(b)}, {Atom(e)}, a, b, e);
    PlusUnites(Times(abcd, five), Times(ab, five));
  }

  /**
   * `(C(1,2) * C(C(I), I) * C(5)).evaluate()`, with a, b, e for 1, 2, 5: an operand made of `I`
   * alone connects nothing and lets a and b through, so only a->e and b->e are called.
   */
  lemma IdentityOperandConnections(a: int, b: int, e: int)
    ensures var ab, ii := C([Num(a), Num(b)]), C([Part(C([Part(LIdentity)])), Part(LIdentity)]);
      Operations(Times(Times(ab, ii), C([Num(e)]))) == {Call(a, e), Call(b, e)}
  {
    var ci := C([Part(LIdentity)]);
    NumberPair(a, b);
    NumberContainer(e);
    SingleTerm(LIdentity);
    TermPair(ci, LIdentity);
    IdentityOperandSets(C([Num(a), Num(b)]), C([Part(ci), Part(LIdentity)]), C([Num(e)]), a, b, e);
  }

  lemma IdentityOperandSets(ab: LTerm, ii: LTerm, five: LTerm, a: int, b: int, e: int)
    requires ab.Container? && ab.sources == {Atom(a), Atom(b)} && ab.sinks == {Atom(a), Atom(b)} && ab.operations == {}
    requires ii.Container? && Sources(ii) == {IdEnd} && Sinks(ii) == {IdEnd} && Operations(ii) == {}
    requires five.Container? && Sources(five) == {Atom(e)} && Sinks(five) == {Atom(e)} && Operations(five) == {}
    ensures Operations(Times(Times(ab, ii), five)) == {Call(a, e), Call(b, e)}
  {
    IdentityOperandPassesThrough(ab, ii, {Atom(a), Atom(b)});
    KnownProduct(Times(ab, ii), five);
    CrossOfPairAndOne({Atom(a), Atom(b)}, {Atom(e)}, a, b, e);
  }

  /** A product with an operand whose only endpoint is `I` keeps the left operand's endpoints and connects nothing. */
  lemma IdentityOperandPassesThrough(ab: LTerm, ii: LTerm, s: set<Endpoint>)
    requires IdEnd !in s
    requires ab.Container? && ab.sources == s && ab.sinks == s && ab.operations == {}
    requires ii.Container? && Sources(ii) == {IdEnd} && Sinks(ii) == {IdEnd} && Operations(ii) == {}
    ensures Times(ab, ii).Container?
    ensures Sources(Times(ab, ii)) == s && Sinks(Times(ab, ii)) == s && Operations(Times(ab, ii)) == {}
  {
    IsZeroMeansEmpty(ii);
    GeneralTimesSets(ab, ii);
    CrossSkipsIdentity(s, {IdEnd});
    assert Cross(s, {}) == {};
    assert forall x :: x in Term.Substitute({IdEnd}, s) <==> x in s;
    assert forall x :: x in Term.Substitute(s, {IdEnd}) <==> x in s;
  }

  /**
   * `(C(C(1) * C(O * C(2), C(3), C(4) * O) * C(5)) - C(1) * C(3)).evaluate()`, with a to e for 1
   * to 5: discarding the product's call a->c leaves a->d, b->e and c->e.
   */
  lemma ZeroSidedDiscardConnections(a: int, b: int, c: int, d: int, e: int)
    requires c != d && c != e
    ensures Operations(Minus(C([Part(Times(Times(C([Num(a)]),
      C([Part(Times(LZero, C([Num(b)]))), Part(C([Num(c)])), Part(Times(C([Num(d)]), LZero))])), C([Num(e)])))]),
      Times(C([Num(a)]), C([Num(c)]))))
      == {Call(a, d), Call(b, e), Call(c, e)}
  {
    var whole := C([Part(Times(Times(C([Num(a)]),
      C([Part(Times(LZero, C([Num(b)]))), Part(C([Num(c)])), Part(Times(C([Num(d)]), LZero))])), C([Num(e)])))]);
    ZeroSidedConnections(a, b, c, d, e);
    NumberContainer(a);
    NumberContainer(c);
    DiscardOneCall(whole, C([Num(a)]), C([Num(c)]), a, b, c, d, e);
  }

  lemma DiscardOneCall(whole: LTerm, one: LTerm, three: LTerm, a: int, b: int, c: int, d: int, e: int)
    requires c != d && c != e
    requires Operations(whole) == {Call(a, c), Call(a, d), Call(b, e), Call(c, e)}
    requires one == Container({Atom(a)}, {Atom(a)}, {}, [Given(Num(a))])
    requires three == Container({Atom(c)}, {Atom(c)}, {}, [Given(Num(c))])
    ensures Operations(Minus(whole, Times(one, three))) == {Call(a, d), Call(b, e), Call(c, e)}
  {
    var p := Times(one, three);
    assert Operations(p) == {Call(a, c)} by {
      KnownProduct(one, three);
      CrossOfOne(a, c);
    }
    MinusDiscards(whole, p);
    CallsWithoutOne(a, b, c, d, e);
  }

  lemma CallsWithoutOne(a: int, b: int, c: int, d: int, e: int)
    requires c != d && c != e
    ensures {Call(a, c), Call(a, d), Call(b, e), Call(c, e)} - {Call(a, c)} == {Call(a, d), Call(b, e), Call(c, e)}
  {
  }

  /** `C(x, y, z)` of plain values. */
  lemma NumberTriple(x: int, y: int, z: int)
    ensures C([Num(x), Num(y), Num(z)])
      == Container({Atom(x), Atom(y), Atom(z)}, {Atom(x), Atom(y), Atom(z)}, {}, [Given(Num(x)), Given(Num(y)), Given(Num(z))])
  {
    var items := [Num(x), Num(y), Num(z)];
    assert items[..2] == [Num(x), Num(y)];
    assert items[..2][..1] == [Num(x)];
    assert [Num(x)][..0] == [];
    assert ItemsEnds([Num(x)], SourceSide) == {Atom(x)} && ItemsEnds([Num(x)], SinkSide) == {Atom(x)};
    assert ItemsOperations([Num(x)]) == {};
    assert ItemsEnds(items[..2], SourceSide) == {Atom(x), Atom(y)};
    assert ItemsEnds(items[..2], SinkSide) == {Atom(x), Atom(y)};
    assert ItemsOperations(items[..2]) == {};
    assert ItemsEnds(items, SourceSide) == {Atom(x), Atom(y), Atom(z)};
    assert ItemsEnds(items, SinkSide) == {Atom(x), Atom(y), Atom(z)};
    assert ItemsOperations(items) == {};
    var r := C(items);
    assert |r.processed| == 3 && r.processed[0] == Given(Num(x)) && r.processed[1] == Given(Num(y)) && r.processed[2] == Given(Num(z));
  }

  /** `C(x,y,z)` prints as `C(x,y,z)`. */
  lemma TriplePrints(x: nat, y: nat, z: nat)
    requires x < 10 && y < 10 && z < 10
    ensures Print(C([Num(x), Num(y), Num(z)])) == "C(" + [DigitChar(x), ',', DigitChar(y), ',', DigitChar(z)] + ")"
  {
    NumberTriple(x, y, z);
    var ps := [Given(Num(x)), Given(Num(y)), Given(Num(z))];
    assert ps[1..] == [Given(Num(y)), Given(Num(z))];
    assert ps[1..][1..] == [Given(Num(z))];
    assert ps[1..][1..][1..] == [];
    var dx, dy, dz := [DigitChar(x)], [DigitChar(y)], [DigitChar(z)];
    assert PrintPieces(ps[1..][1..]) == [dz];
    assert PrintPieces(ps[1..]) == [dy, dz];
    assert PrintPieces(ps) == [dx, dy, dz];
    assert [dx, dy, dz][1..] == [dy, dz];
    assert [dy, dz][1..] == [dz];
    assert Join(",", [dy, dz]) == dy + "," + dz;
  }

  /**
   * `(C(0) * (C(1,2,3) * C(4,5) - C(1,2) * C(4)) * C(6)).evaluate()`, with g, a, b, c, d, e, f for
   * 0 to 6: the difference keeps a->e, b->e, c->d and c->e of the six calls between {a, b, c} and
   * {d, e}; then g reaches c, the difference's only sink, and e, its only source, reaches f.
   */
  lemma DifferenceInChainConnections(a: int, b: int, c: int, d: int, e: int, f: int, g: int)
    requires a != c && b != c && d != e
    ensures var diff := Minus(Times(C([Num(a), Num(b), Num(c)]), C([Num(d), Num(e)])), Times(C([Num(a), Num(b)]), C([Num(d)])));
      Operations(Times(Times(C([Num(g)]), diff), C([Num(f)])))
      == {Call(g, c), Call(a, e), Call(b, e), Call(c, d), Call(c, e), Call(e, f)}
  {
    NumberTriple(a, b, c);
    NumberPair(d, e);
    NumberPair(a, b);
    NumberContainer(d);
    NumberContainer(f);
    NumberContainer(g);
    var diff := Minus(Times(C([Num(a), Num(b), Num(c)]), C([Num(d), Num(e)])), Times(C([Num(a), Num(b)]), C([Num(d)])));
    DifferenceSets(C([Num(a), Num(b), Num(c)]), C([Num(d), Num(e)]), C([Num(a), Num(b)]), C([Num(d)]), a, b, c, d, e);
    DifferenceBetween(C([Num(g)]), diff, C([Num(f)]), a, b, c, d, e, f, g);
  }

  /** The sets of `C(a,b,c) * C(d,e) - C(a,b) * C(d)`. */
  lemma DifferenceSets(abc: LTerm, de: LTerm, ab: LTerm, d1: LTerm, a: int, b: int, c: int, d: int, e: int)
    requires a != c && b != c && d != e
    requires abc == Container({Atom(a), Atom(b), Atom(c)}, {Atom(a), Atom(b), Atom(c)}, {}, [Given(Num(a)), Given(Num(b)), Given(Num(c))])
    requires de == Container({Atom(d), Atom(e)}, {Atom(d), Atom(e)}, {}, [Given(Num(d)), Given(Num(e))])
    requires ab == Container({Atom(a), Atom(b)}, {Atom(a), Atom(b)}, {}, [Given(Num(a)), Given(Num(b))])
    requires d1 == Container({Atom(d)}, {Atom(d)}, {}, [Given(Num(d))])
    ensures var diff := Minus(Times(abc, de), Times(ab, d1));
      && Sources(diff) == {Atom(e)} && Sinks(diff) == {Atom(c)}
      && Operations(diff) == {Call(a, e), Call(b, e), Call(c, d), Call(c, e)}
  {
    KnownProduct(abc, de);
    KnownProduct(ab, d1);
    CrossOfTripleAndPair(a, b, c, d, e);
    CrossOfPairAndOne({Atom(a), Atom(b)}, {Atom(d)}, a, b, d);
    MinusDiscards(Times(abc, de), Times(ab, d1));
    SixCallsLessTwo(a, b, c, d, e);
  }

  lemma CrossOfTripleAndPair(a: int, b: int, c: int, d: int, e: int)
    ensures Cross({Atom(a), Atom(b), Atom(c)}, {Atom(d), Atom(e)})
      == {Call(a, d), Call(a, e), Call(b, d), Call(b, e), Call(c, d), Call(c, e)}
  {
    var r := Cross({Atom(a), Atom(b), Atom(c)}, {Atom(d), Atom(e)});
    forall f | f in r
      ensures f in {Call(a, d), Call(a, e), Call(b, d), Call(b, e), Call(c, d), Call(c, e)}
    {
      var s, t :| s in {Atom(a), Atom(b), Atom(c)} && t in {Atom(d), Atom(e)} && f == FreezedFnc(LConnector, [s, t]);
    }
    assert Call(a, d) in r by { assert FreezedFnc(LConnector, [Atom(a), Atom(d)]) == Call(a, d); }
    assert Call(a, e) in r by { assert FreezedFnc(LConnector, [Atom(a), Atom(e)]) == Call(a, e); }
    assert Call(b, d) in r by { assert FreezedFnc(LConnector, [Atom(b), Atom(d)]) == Call(b, d); }
    assert Call(b, e) in r by { assert FreezedFnc(LConnector, [Atom(b), Atom(e)]) == Call(b, e); }
    assert Call(c, d) in r by { assert FreezedFnc(LConnector, [Atom(c), Atom(d)]) == Call(c, d); }
    assert Call(c, e) in r by { assert FreezedFnc(LConnector, [Atom(c), Atom(e)]) == Call(c, e); }
  }

  lemma SixCallsLessTwo(a: int, b: int, c: int, d: int, e: int)
    requires a != c && b != c && d != e
    ensures {} + {} + {Call(a, d), Call(a, e), Call(b, d), Call(b, e), Call(c, d), Call(c, e)} - ({} + {} + {Call(a, d), Call(b, d)})
      == {Call(a, e), Call(b, e), Call(c, d), Call(c, e)}
    ensures {Atom(a), Atom(b), Atom(c)} - {Atom(a), Atom(b)} == {Atom(c)}
    ensures {Atom(d), Atom(e)} - {Atom(d)} == {Atom(e)}
  {
  }

  /** `C(g) * diff * C(f)` for a difference with the single sink c and the single source e. */
  lemma DifferenceBetween(left: LTerm, diff: LTerm, right: LTerm, a: int, b: int, c: int, d: int, e: int, f: int, g: int)
    requires left == Container({Atom(g)}, {Atom(g)}, {}, [Given(Num(g))])
    requires right == Container({Atom(f)}, {Atom(f)}, {}, [Given(Num(f))])
    requires diff.Container? && Sources(diff) == {Atom(e)} && Sinks(diff) == {Atom(c)}
    requires Operations(diff) == {Call(a, e), Call(b, e), Call(c, d), Call(c, e)}
    ensures Operations(Times(Times(left, diff), right)) == {Call(g, c), Call(a, e), Call(b, e), Call(c, d), Call(c, e), Call(e, f)}
  {
    KnownProduct(left, diff);
    CrossOfOne(g, c);
    KnownProduct(Times(left, diff), right);
    CrossOfOne(e, f);
  }

  /**
   * `C(0)*( C(1,2,3)*C(4,5) - C(1,2)*C(4) ) *C(6)` prints as
   * `C(C(C(0),'*',C(C(C(1,2,3),'*',C(4,5)),'-',C(C(1,2),'*',C(4)))),'*',C(6))`: every node, the
   * difference included, is a Container printing its two operands around the quoted sign.
   * The expected text is written as the concatenation of those nodes.
   */
  lemma DifferenceInChainPrints(g: LTerm, abc: LTerm, de: LTerm, ab: LTerm, d1: LTerm, f: LTerm)
    requires g == C([Num(0)]) && f == C([Num(6)])
    requires abc == C([Num(1), Num(2), Num(3)]) && de == C([Num(4), Num(5)]) && ab == C([Num(1), Num(2)]) && d1 == C([Num(4)])
    ensures Print(Times(Times(g, Minus(Times(abc, de), Times(ab, d1))), f))
      == "C(" + ("C(" + "C(0)" + ",'*'," + ("C(" + ("C(" + "C(1,2,3)" + ",'*'," + "C(4,5)" + ")") + ",'-',"
        + ("C(" + "C(1,2)" + ",'*'," + "C(4)" + ")") + ")") + ")") + ",'*'," + "C(6)" + ")"
  {
    LeafContainers(g, abc, de, ab, d1, f);
    SingleLeafPrints(g, d1, f);
    TripleLeafPrints(abc);
    PairLeafPrints(de, ab);
    DifferenceSets(abc, de, ab, d1, 1, 2, 3, 4, 5);
    ChainOfDifferencePrints(g, abc, de, ab, d1, f);
  }

  /** The leaves of that expression as Containers. */
  lemma LeafContainers(g: LTerm, abc: LTerm, de: LTerm, ab: LTerm, d1: LTerm, f: LTerm)
    requires g == C([Num(0)]) && f == C([Num(6)])
    requires abc == C([Num(1), Num(2), Num(3)]) && de == C([Num(4), Num(5)]) && ab == C([Num(1), Num(2)]) && d1 == C([Num(4)])
    ensures g == Container({Atom(0)}, {Atom(0)}, {}, [Given(Num(0))]) && f == Container({Atom(6)}, {Atom(6)}, {}, [Given(Num(6))])
    ensures abc == Container({Atom(1), Atom(2), Atom(3)}, {Atom(1), Atom(2), Atom(3)}, {}, [Given(Num(1)), Given(Num(2)), Given(Num(3))])
    ensures de == Container({Atom(4), Atom(5)}, {Atom(4), Atom(5)}, {}, [Given(Num(4)), Given(Num(5))])
    ensures ab == Container({Atom(1), Atom(2)}, {Atom(1), Atom(2)}, {}, [Given(Num(1)), Given(Num(2))])
    ensures d1 == Container({Atom(4)}, {Atom(4)}, {}, [Given(Num(4))])
  {
    NumberTriple(1, 2, 3);
    NumberPair(4, 5);
    NumberPair(1, 2);
    NumberContainer(4);
    NumberContainer(0);
    NumberContainer(6);
  }

  /** The printed forms of the single-number leaves. */
  lemma SingleLeafPrints(g: LTerm, d1: LTerm, f: LTerm)
    requires g == C([Num(0)]) && d1 == C([Num(4)]) && f == C([Num(6)])
    ensures Print(g) == "C(0)" && Print(f) == "C(6)" && Print(d1) == "C(4)"
  {
    SinglePrints(4);
    SinglePrints(0);
    SinglePrints(6);
  }

  /** The printed form of the three-number leaf. */
  lemma TripleLeafPrints(abc: LTerm)
    requires abc == C([Num(1), Num(2), Num(3)])
    ensures Print(abc) == "C(1,2,3)"
  {
    TriplePrints(1, 2, 3);
  }

  /** The printed forms of the two-number leaves. */
  lemma PairLeafPrints(de: LTerm, ab: LTerm)
    requires de == C([Num(4), Num(5)]) && ab == C([Num(1), Num(2)])
    ensures Print(de) == "C(4,5)" && Print(ab) == "C(1,2)"
  {
    PairPrints(4, 5);
    PairPrints(1, 2);
  }

  /** How `g * (p * q - r * s) * f` prints, node by node. */
  lemma ChainOfDifferencePrints(g: LTerm, p: LTerm, q: LTerm, r: LTerm, s: LTerm, f: LTerm)
    requires g.Container? && p.Container? && q.Container? && r.Container? && s.Container? && f.Container?
    requires Sinks(q) != {} && Sinks(s) != {} && Sinks(f) != {}
    requires Sinks(Minus(Times(p, q), Times(r, s))) != {}
    ensures var diff := Minus(Times(p, q), Times(r, s));
      Print(Times(Times(g, diff), f))
      == "C(" + ("C(" + Print(g) + ",'*'," + ("C(" + ("C(" + Print(p) + ",'*'," + Print(q) + ")") + ",'-',"
        + ("C(" + Print(r) + ",'*'," + Print(s) + ")") + ")") + ")") + ",'*'," + Print(f) + ")"
  {
    var diff := Minus(Times(p, q), Times(r, s));
    DifferenceOfProductsPrints(p, q, r, s);
    ProductChainPrints(g, diff, f);
  }

  lemma DifferenceOfProductsPrints(p: LTerm, q: LTerm, r: LTerm, s: LTerm)
    requires p.Container? && r.Container? && Sinks(q) != {} && Sinks(s) != {} && !q.LIdentity? && !s.LIdentity?
    ensures Minus(Times(p, q), Times(r, s)).Container?
    ensures Print(Minus(Times(p, q), Times(r, s)))
      == "C(" + ("C(" + Print(p) + ",'*'," + Print(q) + ")") + ",'-'," + ("C(" + Print(r) + ",'*'," + Print(s) + ")") + ")"
  {
    IsZeroMeansEmpty(q);
    IsZeroMeansEmpty(s);
    TimesPrints(p, q);
    TimesPrints(r, s);
    MinusDiscards(Times(p, q), Times(r, s));
  }

  lemma ProductChainPrints(g: LTerm, m: LTerm, f: LTerm)
    requires g.Container? && m.Container? && f.Container? && Sinks(m) != {} && Sinks(f) != {}
    ensures Print(Times(Times(g, m), f)) == "C(" + ("C(" + Print(g) + ",'*'," + Print(m) + ")") + ",'*'," + Print(f) + ")"
  {
    IsZeroMeansEmpty(m);
    IsZeroMeansEmpty(f);
    TimesPrints(g, m);
    GeneralTimesSets(g, m);
    TimesPrints(Times(g, m), f);
  }
}
