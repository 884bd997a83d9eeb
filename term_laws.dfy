/** What term.py and its doctests promise about `+`, `-` and `*`, proved about the model. */
module TermLaws {
  import opened Wrappers
  import opened Endpoints
  import opened Operation
  import opened Category
  import opened CategoryOperations
  import opened Term

  /** The connector of a Category is the model's, and no connection has the Identity as an endpoint. */
  predicate Sound(c: Category)
  {
    && c.operator == Connector
    && forall f :: f in c.operations ==> f.operator == Connector && f.source != IdEnd && f.sink != IdEnd
  }

  /** Composition is the only source of connections, and it never connects the Identity. */
  lemma {:induction false} WellFormedIsSound(t: Term)
    requires WellFormed(t)
    ensures Sound(CatOf(t))
  {
    match t
    case Mediate(_, ProcessedTerm(l, op, r)) =>
      WellFormedIsSound(l);
      WellFormedIsSound(r);
    case _ =>
  }

  /** `+` unites the three sets. */
  lemma PlusUnites(a: Term, b: Term)
    ensures CatOf(Plus(a, b)).sinks == CatOf(a).sinks + CatOf(b).sinks
    ensures CatOf(Plus(a, b)).sources == CatOf(a).sources + CatOf(b).sources
    ensures CatOf(Plus(a, b)).operations == CatOf(a).operations + CatOf(b).operations
  {
  }

  /** `+` is commutative up to `==` (for operands of one connector). */
  lemma PlusCommutes(a: Term, b: Term)
    requires CatOf(a).operator == CatOf(b).operator
    ensures TermEq(Plus(a, b), Plus(b, a))
  {
    PlusUnites(a, b);
    PlusUnites(b, a);
  }

  /** `+` is associative up to `==`. */
  lemma PlusAssociates(a: Term, b: Term, c: Term)
    ensures TermEq(Plus(Plus(a, b), c), Plus(a, Plus(b, c)))
  {
    var x, y, z := CatOf(a), CatOf(b), CatOf(c);
    assert CatOf(Plus(Plus(a, b), c)) == UnionCat(UnionCat(x, y), z);
    assert CatOf(Plus(a, Plus(b, c))) == UnionCat(x, UnionCat(y, z));
    UnionAssociates(x, y, z);
  }

  lemma UnionAssociates(x: Category, y: Category, z: Category)
    ensures UnionCat(UnionCat(x, y), z) == UnionCat(x, UnionCat(y, z))
  {
    var left, right := UnionCat(UnionCat(x, y), z), UnionCat(x, UnionCat(y, z));
    assert left.sources == right.sources && left.sinks == right.sinks;
    assert left.operations == right.operations;
  }

  /** `+` is idempotent up to `==`. */
  lemma PlusIdempotent(a: Term)
    ensures TermEq(Plus(a, a), a)
  {
    PlusUnites(a, a);
  }

  /** `-` removes the right operand's sets from the left operand's; `a - a` is empty. */
  lemma MinusDiscards(a: Term, b: Term)
    ensures CatOf(Minus(a, b)).sinks == CatOf(a).sinks - CatOf(b).sinks
    ensures CatOf(Minus(a, b)).sources == CatOf(a).sources - CatOf(b).sources
    ensures CatOf(Minus(a, b)).operations == CatOf(a).operations - CatOf(b).operations
    ensures WellFormed(a) ==> TermEq(Minus(a, a), Zero)
  {
    if WellFormed(a) { WellFormedIsSound(a); }
  }

  /** `I * b` carries exactly b's sets; `O * b` keeps b's sources and operations and has no sinks. */
  lemma LeftIdentityAndZero(b: Term)
    ensures CatOf(Times(Identity, b)) == CatOf(b)
    ensures CatOf(Times(Zero, b)) == Category(CatOf(b).operator, CatOf(b).sources, {}, CatOf(b).operations)
  {
  }

  /** Right operand Identity: a's sets are kept; right operand Zero: a's sinks and operations, no sources. */
  lemma RightIdentityAndZero(a: Term)
    requires !a.Identity? && !a.Zero?
    ensures var A := CatOf(a); CatOf(Times(a, Identity)) == Category(Connector, A.sources, A.sinks, A.operations)
    ensures var A := CatOf(a); CatOf(Times(a, Zero)) == Category(Connector, {}, A.sinks, A.operations)
  {
  }

  /**
   * The general case of `*`: the connections are both operands' plus each (s, t) with s a source of a
   * and t a sink of b, Identity endpoints skipped; the Identity in b's sources stands for a's sources
   * and the Identity in a's sinks for b's sinks.
   */
  lemma GeneralComposition(a: Term, b: Term)
    requires !a.Identity? && !a.Zero? && !b.Identity? && !b.Zero?
    requires WellFormed(a) && WellFormed(b)
    ensures var A, B, R := CatOf(a), CatOf(b), CatOf(Times(a, b));
      forall f :: f in R.operations <==>
        || f in A.operations || f in B.operations
        || (f == FreezedOperation(Connector, f.source, f.sink)
            && f.source in A.sources && f.sink in B.sinks && f.source != IdEnd && f.sink != IdEnd)
    ensures var A, B, R := CatOf(a), CatOf(b), CatOf(Times(a, b));
      forall e :: e in R.sources <==> (e in B.sources && e != IdEnd) || (IdEnd in B.sources && e in A.sources)
    ensures var A, B, R := CatOf(a), CatOf(b), CatOf(Times(a, b));
      forall e :: e in R.sinks <==> (e in A.sinks && e != IdEnd) || (IdEnd in A.sinks && e in B.sinks)
  {
    WellFormedIsSound(a);
  }

  const IdentitySets := CatOf(Identity)

  lemma ComposeWithIdentity(x: Category)
    requires x.operator == Connector
    ensures ComposeCat(IdentitySets, x) == x
    ensures ComposeCat(x, IdentitySets) == x
  {
  }

  /** Away from Zero, `*` computes its sets by the general rule whichever operand is the Identity. */
  lemma {:induction false} TimesIsCompose(a: Term, b: Term)
    requires WellFormed(a) && WellFormed(b) && !a.Zero? && !b.Zero?
    ensures CatOf(Times(a, b)) == ComposeCat(CatOf(a), CatOf(b))
  {
    WellFormedIsSound(a);
    WellFormedIsSound(b);
    if a.Identity? {
      ComposeWithIdentity(CatOf(b));
    } else if b.Identity? {
      ComposeWithIdentity(CatOf(a));
    }
  }

  /** `*` distributes over `+` on both sides. */
  lemma ComposeDistributes(h: Category, x: Category, y: Category)
    requires h.operator == x.operator == y.operator
    ensures ComposeCat(h, UnionCat(x, y)) == UnionCat(ComposeCat(h, x), ComposeCat(h, y))
    ensures ComposeCat(UnionCat(x, y), h) == UnionCat(ComposeCat(x, h), ComposeCat(y, h))
  {
    ComposeDistributesOnRight(h, x, y);
    ComposeDistributesOnLeft(h, x, y);
  }

  lemma ComposeDistributesOnRight(h: Category, x: Category, y: Category)
    requires h.operator == x.operator == y.operator
    ensures ComposeCat(h, UnionCat(x, y)) == UnionCat(ComposeCat(h, x), ComposeCat(h, y))
  {
    var left, right := ComposeCat(h, UnionCat(x, y)), UnionCat(ComposeCat(h, x), ComposeCat(h, y));
    assert left.sources == right.sources;
    assert left.sinks == right.sinks;
    assert left.operations == right.operations;
  }

  lemma ComposeDistributesOnLeft(h: Category, x: Category, y: Category)
    requires h.operator == x.operator == y.operator
    ensures ComposeCat(UnionCat(x, y), h) == UnionCat(ComposeCat(x, h), ComposeCat(y, h))
  {
    var left, right := ComposeCat(UnionCat(x, y), h), UnionCat(ComposeCat(x, h), ComposeCat(y, h));
    assert left.sources == right.sources;
    assert left.sinks == right.sinks;
    assert left.operations == right.operations;
  }

  /** The Identity is a sink exactly when it is a source. */
  predicate IdSymmetric(c: Category)
  {
    IdEnd in c.sinks <==> IdEnd in c.sources
  }

  /** `*` is associative when the middle operand has the Identity on both sides or on neither. */
  lemma ComposeAssociative(a: Category, b: Category, c: Category)
    requires a.operator == b.operator == c.operator
    requires IdSymmetric(b)
    ensures ComposeCat(ComposeCat(a, b), c) == ComposeCat(a, ComposeCat(b, c))
  {
    var left, right := ComposeCat(ComposeCat(a, b), c), ComposeCat(a, ComposeCat(b, c));
    assert left.operations == right.operations;
    assert left.sources == right.sources;
    assert left.sinks == right.sinks;
  }

  /** Terms built without Zero have the Identity as a sink exactly when they have it as a source. */
  lemma {:induction false} ZeroFreeIsIdSymmetric(t: Term)
    requires WellFormed(t) && ZeroFree(t)
    ensures IdSymmetric(CatOf(t))
  {
    match t
    case Mediate(_, ProcessedTerm(l, op, r)) =>
      ZeroFreeIsIdSymmetric(l);
      ZeroFreeIsIdSymmetric(r);
      if op == ARROW {
        TimesIsCompose(l, r);
      }
    case _ =>
  }

  /** `==` is not a congruence for `*`: `C(1) - C(1) == O`, but the two differ once composed with I. */
  lemma EqualityIsNotCongruence()
    ensures TermEq(Minus(Adder({Atom(1)}), Adder({Atom(1)})), Zero)
    ensures !TermEq(Times(Minus(Adder({Atom(1)}), Adder({Atom(1)})), Identity), Times(Zero, Identity))
  {
    assert IdEnd in CatOf(Times(Zero, Identity)).sources;
  }

  /** The left-nested chain of singleton leaf sets carries the sets of the leaf set of all its items. */
  lemma {:induction false} AdditionChainMeaning(xs: seq<Endpoint>)
    requires |xs| > 0
    ensures WellFormed(AdditionChain(xs))
    ensures CatOf(AdditionChain(xs)) == CatOf(Adder(Elements(xs)))
  {
    if |xs| > 1 {
      var init := xs[..|xs| - 1];
      AdditionChainMeaning(init);
      assert Elements(xs) == Elements(init) + {xs[|xs| - 1]} by {
        assert xs == init + [xs[|xs| - 1]];
      }
    }
  }

  /** `reduce_to_additions` keeps the meaning: its chain `==` the original leaf set. */
  lemma ReduceToAdditionsRoundTrip(items: set<Endpoint>)
    requires items != {}
    ensures TermEq(AdditionChain(SortedEndpoints(items)), Adder(items))
  {
    var xs := SortedEndpoints(items);
    assert Elements(xs) == items;
    AdditionChainMeaning(xs);
  }

  function C1(x: int): Term { Adder({Atom(x)}) }
  function C2(x: int, y: int): Term { Adder({Atom(x), Atom(y)}) }

  /** The Identity doctests: I is `==` to I, I*I, I+I, I-O and O+I, and to nothing else listed. */
  lemma IdentityDoctests()
    ensures TermEq(Identity, Identity) && !TermEq(Identity, Zero)
    ensures TermEq(Identity, Times(Identity, Identity)) && TermEq(Identity, Plus(Identity, Identity))
    ensures !TermEq(Identity, Minus(Identity, Identity)) && TermEq(Identity, Minus(Identity, Zero))
    ensures !TermEq(Identity, Times(Zero, Identity)) && TermEq(Identity, Plus(Zero, Identity))
    ensures !TermEq(Identity, Minus(Zero, Identity)) && !TermEq(Identity, Plus(Zero, Zero))
  {
  }

  /** The Zero doctests: O is `==` to C(1)-C(1), O, I-I, O-I and O+O, and to nothing else listed. */
  lemma ZeroDoctests()
    ensures TermEq(Minus(C1(1), C1(1)), Zero)
    ensures !TermEq(Zero, Identity) && TermEq(Zero, Zero)
    ensures !TermEq(Zero, Times(Identity, Identity)) && !TermEq(Zero, Plus(Identity, Identity))
    ensures TermEq(Zero, Minus(Identity, Identity)) && !TermEq(Zero, Minus(Identity, Zero))
    ensures !TermEq(Zero, Times(Zero, Identity)) && !TermEq(Zero, Plus(Zero, Identity))
    ensures TermEq(Zero, Minus(Zero, Identity)) && TermEq(Zero, Plus(Zero, Zero))
  {
    assert IdEnd in CatOf(Times(Zero, Identity)).sources;
  }

  /** `C(1,2) * C(3,4)` makes exactly the four connections 1->3, 1->4, 2->3, 2->4. */
  lemma FourConnections()
    ensures CatOf(Times(C2(1, 2), C2(3, 4))).operations == {
      FreezedOperation(Connector, Atom(1), Atom(3)), FreezedOperation(Connector, Atom(1), Atom(4)),
      FreezedOperation(Connector, Atom(2), Atom(3)), FreezedOperation(Connector, Atom(2), Atom(4))}
  {
  }

  /** ... and evaluates them in that order. */
  lemma FourConnectionsOrder(calls: seq<FreezedOperation>)
    requires SortedListOf(calls, CatOf(Times(C2(1, 2), C2(3, 4))).operations)
    ensures calls == [
      FreezedOperation(Connector, Atom(1), Atom(3)), FreezedOperation(Connector, Atom(1), Atom(4)),
      FreezedOperation(Connector, Atom(2), Atom(3)), FreezedOperation(Connector, Atom(2), Atom(4))]
  {
    var a, b := FreezedOperation(Connector, Atom(1), Atom(3)), FreezedOperation(Connector, Atom(1), Atom(4));
    var c, d := FreezedOperation(Connector, Atom(2), Atom(3)), FreezedOperation(Connector, Atom(2), Atom(4));
    FourConnections();
    var s := {a, b, c, d};
    SortedListFromMembers([a, b, c, d], s);
    SortedListUnique(calls, [a, b, c, d], s);
  }

  /** The sides of `C(3,4) * C(1,2)`, and why it is not `C(1,2) * C(3,4)`. */
  lemma CompositionDoesNotCommute()
    ensures CatOf(Times(C2(3, 4), C2(1, 2))).sinks == {Atom(3), Atom(4)}
    ensures CatOf(Times(C2(3, 4), C2(1, 2))).sources == {Atom(1), Atom(2)}
    ensures !TermEq(Times(C2(1, 2), C2(3, 4)), Times(C2(3, 4), C2(1, 2)))
  {
    assert FreezedOperation(Connector, Atom(1), Atom(3)) in CatOf(Times(C2(1, 2), C2(3, 4))).operations;
    assert FreezedOperation(Connector, Atom(1), Atom(3)) !in CatOf(Times(C2(3, 4), C2(1, 2))).operations;
  }

  /** Leaf sets ignore the order and grouping of their items. */
  lemma LeafSetsIgnoreOrder()
    ensures TermEq(C2(1, 2), Plus(C1(1), C1(2)))
    ensures TermEq(Times(C2(1, 2), C2(3, 4)), Times(C2(2, 1), C2(4, 3)))
    ensures TermEq(Times(C2(1, 2), C2(3, 4)), Times(Plus(C1(1), C1(2)), Plus(C1(3), C1(4))))
  {
    assert C2(2, 1) == C2(1, 2) && C2(4, 3) == C2(3, 4);
  }

  /** An Identity among the right operand's items keeps the left operand's sources: `C(1) * C(2, I)`. */
  lemma IdentityItemKeepsSources()
    ensures CatOf(Times(C1(1), Adder({Atom(2), IdEnd}))).sinks == {Atom(1)}
    ensures CatOf(Times(C1(1), Adder({Atom(2), IdEnd}))).sources == {Atom(1), Atom(2)}
    ensures CatOf(Times(C1(1), Adder({Atom(2), IdEnd}))).operations == {FreezedOperation(Connector, Atom(1), Atom(2))}
    ensures TermEq(Times(C1(1), Adder({Atom(2), IdEnd})), Plus(C1(1), Times(C1(1), C1(2))))
  {
  }

  /** The connection `s -> t` of the model's connector. */
  function Link(s: int, t: int): FreezedOperation
  {
    FreezedOperation(Connector, Atom(s), Atom(t))
  }

  /** Two leaf sets without the Identity compose by the general rule: x's sinks, y's sources, x to y. */
  lemma LeafProduct(x: set<Endpoint>, y: set<Endpoint>)
    requires IdEnd !in x && IdEnd !in y
    ensures CatOf(Times(Adder(x), Adder(y))) == Category(Connector, y, x, Cross(Connector, x, y))
  {
    assert Substitute(y, x) == y && Substitute(x, y) == x;
  }

  lemma CrossOfPairs(a: int, b: int, c: int, d: int)
    ensures Cross(Connector, {Atom(a), Atom(b)}, {Atom(c), Atom(d)}) == {Link(a, c), Link(a, d), Link(b, c), Link(b, d)}
  {
    var r := Cross(Connector, {Atom(a), Atom(b)}, {Atom(c), Atom(d)});
    assert forall f :: f in r <==> f in {Link(a, c), Link(a, d), Link(b, c), Link(b, d)};
  }

  lemma CrossOfPairAndOne(a: int, b: int, c: int)
    ensures Cross(Connector, {Atom(a), Atom(b)}, {Atom(c)}) == {Link(a, c), Link(b, c)}
  {
    var r := Cross(Connector, {Atom(a), Atom(b)}, {Atom(c)});
    assert forall f :: f in r <==> f in {Link(a, c), Link(b, c)};
  }

  lemma CrossOfOneAndOne(a: int, c: int)
    ensures Cross(Connector, {Atom(a)}, {Atom(c)}) == {Link(a, c)}
  {
    var r := Cross(Connector, {Atom(a)}, {Atom(c)});
    assert forall f :: f in r <==> f in {Link(a, c)};
  }

  /** `C(3,4) * C(1,2)` makes 3->1, 3->2, 4->1 and 4->2: here with any four values. */
  lemma ReversedFourConnections(a: int, b: int, c: int, d: int)
    ensures CatOf(Times(C2(a, b), C2(c, d))).operations == {Link(a, c), Link(a, d), Link(b, c), Link(b, d)}
  {
    LeafProduct({Atom(a), Atom(b)}, {Atom(c), Atom(d)});
    CrossOfPairs(a, b, c, d);
  }

  /**
   * The discard doctests, with 3, 4, 1, 2 for a, b, c, d: `C(a,b) * C(c,d) - C(b) * C(c)` connects
   * a->c, a->d and b->d and has the sinks {a}, so it is not `==` to `C(a) * C(c,d) + C(b) * C(d)`,
   * whose sinks are {a, b}; taking `C(b) * O` and `O * C(c)` away from the sum makes the two `==`.
   */
  lemma DiscardDoctests(a: int, b: int, c: int, d: int)
    requires a != b && c != d
    ensures var diff := Minus(Times(C2(a, b), C2(c, d)), Times(C1(b), C1(c)));
      && CatOf(diff).operations == {Link(a, c), Link(a, d), Link(b, d)}
      && CatOf(diff).sinks == {Atom(a)}
    ensures CatOf(Plus(Times(C1(a), C2(c, d)), Times(C1(b), C1(d)))).sinks == {Atom(a), Atom(b)}
    ensures var diff := Minus(Times(C2(a, b), C2(c, d)), Times(C1(b), C1(c)));
      var sum := Plus(Times(C1(a), C2(c, d)), Times(C1(b), C1(d)));
      && !TermEq(diff, sum)
      && TermEq(diff, Minus(Minus(sum, Times(C1(b), Zero)), Times(Zero, C1(c))))
  {
    LeafProduct({Atom(a), Atom(b)}, {Atom(c), Atom(d)});
    CrossOfPairs(a, b, c, d);
    LeafProduct({Atom(b)}, {Atom(c)});
    CrossOfOneAndOne(b, c);
    LeafProduct({Atom(a)}, {Atom(c), Atom(d)});
    CrossOfPairs(a, a, c, d);
    assert {Atom(a), Atom(a)} == {Atom(a)};
    LeafProduct({Atom(b)}, {Atom(d)});
    CrossOfOneAndOne(b, d);
    DiscardedLinks(a, b, c, d);
  }

  lemma DiscardedLinks(a: int, b: int, c: int, d: int)
    requires a != b && c != d
    ensures {Link(a, c), Link(a, d), Link(b, c), Link(b, d)} - {Link(b, c)} == {Link(a, c), Link(a, d), Link(b, d)}
    ensures {Link(a, c), Link(a, d)} + {Link(b, d)} == {Link(a, c), Link(a, d), Link(b, d)}
  {
  }

  /** `O * I * O == O`. */
  lemma ZeroAroundIdentity()
    ensures TermEq(Times(Times(Zero, Identity), Zero), Zero)
  {
  }

  /**
   * The Identity in a middle factor lets the outer factors meet: for leaf sets without `I`,
   * `x * y * z + x * z == x * (y + I) * z`, both connecting x to y, y to z and x to z.
   */
  lemma IdentityFactorsOut(x: set<Endpoint>, y: set<Endpoint>, z: set<Endpoint>)
    requires IdEnd !in x && IdEnd !in y && IdEnd !in z
    ensures var lhs := Plus(Times(Times(Adder(x), Adder(y)), Adder(z)), Times(Adder(x), Adder(z)));
      CatOf(lhs) == Category(Connector, z, x, Cross(Connector, x, y) + Cross(Connector, y, z) + Cross(Connector, x, z))
    ensures var rhs := Times(Times(Adder(x), Plus(Adder(y), Identity)), Adder(z));
      CatOf(rhs) == Category(Connector, z, x, Cross(Connector, x, y) + Cross(Connector, y, z) + Cross(Connector, x, z))
  {
    SumOfChains(x, y, z);
    IdentityInMiddle(x, y, z);
  }

  lemma SumOfChains(x: set<Endpoint>, y: set<Endpoint>, z: set<Endpoint>)
    requires IdEnd !in x && IdEnd !in y && IdEnd !in z
    ensures var lhs := Plus(Times(Times(Adder(x), Adder(y)), Adder(z)), Times(Adder(x), Adder(z)));
      CatOf(lhs) == Category(Connector, z, x, Cross(Connector, x, y) + Cross(Connector, y, z) + Cross(Connector, x, z))
  {
    LeafProduct(x, y);
    LeafProduct(x, z);
    var xy := Times(Adder(x), Adder(y));
    assert CatOf(Times(xy, Adder(z))) == Category(Connector, z, x, Cross(Connector, x, y) + Cross(Connector, y, z)) by {
      assert Substitute(z, y) == z && Substitute(x, z) == x;
    }
  }

  lemma IdentityInMiddle(x: set<Endpoint>, y: set<Endpoint>, z: set<Endpoint>)
    requires IdEnd !in x && IdEnd !in y && IdEnd !in z
    ensures var rhs := Times(Times(Adder(x), Plus(Adder(y), Identity)), Adder(z));
      CatOf(rhs) == Category(Connector, z, x, Cross(Connector, x, y) + Cross(Connector, y, z) + Cross(Connector, x, z))
  {
    var yi := Plus(Adder(y), Identity);
    assert CatOf(yi) == Category(Connector, y + {IdEnd}, y + {IdEnd}, {});
    var xyi := Times(Adder(x), yi);
    assert CatOf(xyi) == Category(Connector, y + x, x, Cross(Connector, x, y)) by {
      assert Substitute(y + {IdEnd}, x) == y + x;
      assert Substitute(x, y + {IdEnd}) == x;
      assert Cross(Connector, x, y + {IdEnd}) == Cross(Connector, x, y);
    }
    assert CatOf(Times(xyi, Adder(z))) == Category(Connector, z, x, Cross(Connector, x, y) + Cross(Connector, y + x, z)) by {
      assert Substitute(z, y + x) == z && Substitute(x, z) == x;
    }
    assert Cross(Connector, y + x, z) == Cross(Connector, y, z) + Cross(Connector, x, z);
  }

  /**
   * The simplification doctest, with 1, 2, 3, 4, 5 for a, b, c, d, e:
   * `C(a,b) * C(c,d) * C(e) + C(a,b) * C(e) == C(a,b) * (C(c,d) + I) * C(e)`,
   * both making a->c, a->d, a->e, b->c, b->d, b->e, c->e and d->e.
   */
  lemma IdentitySimplifies(a: int, b: int, c: int, d: int, e: int)
    ensures var lhs := Plus(Times(Times(C2(a, b), C2(c, d)), C1(e)), Times(C2(a, b), C1(e)));
      CatOf(lhs).operations == {Link(a, c), Link(a, d), Link(a, e), Link(b, c), Link(b, d), Link(b, e), Link(c, e), Link(d, e)}
    ensures TermEq(Plus(Times(Times(C2(a, b), C2(c, d)), C1(e)), Times(C2(a, b), C1(e))),
      Times(Times(C2(a, b), Plus(C2(c, d), Identity)), C1(e)))
  {
    var x, y, z := {Atom(a), Atom(b)}, {Atom(c), Atom(d)}, {Atom(e)};
    IdentityFactorsOut(x, y, z);
    EightLinks(a, b, c, d, e);
  }

  lemma EightLinks(a: int, b: int, c: int, d: int, e: int)
    ensures var x, y, z := {Atom(a), Atom(b)}, {Atom(c), Atom(d)}, {Atom(e)};
      Cross(Connector, x, y) + Cross(Connector, y, z) + Cross(Connector, x, z)
      == {Link(a, c), Link(a, d), Link(a, e), Link(b, c), Link(b, d), Link(b, e), Link(c, e), Link(d, e)}
  {
    CrossOfPairs(a, b, c, d);
    CrossOfPairAndOne(c, d, e);
    CrossOfPairAndOne(a, b, e);
  }

  /**
   * Terminating a loose end with `O` lets a shared factor out: for leaf sets without `I`,
   * `w * x * z + O * y * z == w * (x + O * y) * z`, both connecting w to x, and x and y to z.
   */
  lemma ZeroFactorsOut(w: set<Endpoint>, x: set<Endpoint>, y: set<Endpoint>, z: set<Endpoint>)
    requires IdEnd !in w && IdEnd !in x && IdEnd !in y && IdEnd !in z
    ensures var sum := Plus(Times(Times(Adder(w), Adder(x)), Adder(z)), Times(Times(Zero, Adder(y)), Adder(z)));
      CatOf(sum) == Category(Connector, z, w, Cross(Connector, w, x) + Cross(Connector, x, z) + Cross(Connector, y, z))
    ensures var factored := Times(Times(Adder(w), Plus(Adder(x), Times(Zero, Adder(y)))), Adder(z));
      CatOf(factored) == Category(Connector, z, w, Cross(Connector, w, x) + Cross(Connector, x, z) + Cross(Connector, y, z))
    ensures var bare := Plus(Times(Times(Adder(w), Adder(x)), Adder(z)), Times(Adder(y), Adder(z)));
      CatOf(bare) == Category(Connector, z, w + y, Cross(Connector, w, x) + Cross(Connector, x, z) + Cross(Connector, y, z))
  {
    ChainAndTerminatedChain(w, x, y, z);
    ZeroInMiddle(w, x, y, z);
  }

  lemma ChainAndTerminatedChain(w: set<Endpoint>, x: set<Endpoint>, y: set<Endpoint>, z: set<Endpoint>)
    requires IdEnd !in w && IdEnd !in x && IdEnd !in y && IdEnd !in z
    ensures var sum := Plus(Times(Times(Adder(w), Adder(x)), Adder(z)), Times(Times(Zero, Adder(y)), Adder(z)));
      CatOf(sum) == Category(Connector, z, w, Cross(Connector, w, x) + Cross(Connector, x, z) + Cross(Connector, y, z))
    ensures var bare := Plus(Times(Times(Adder(w), Adder(x)), Adder(z)), Times(Adder(y), Adder(z)));
      CatOf(bare) == Category(Connector, z, w + y, Cross(Connector, w, x) + Cross(Connector, x, z) + Cross(Connector, y, z))
  {
    LeafProduct(w, x);
    LeafProduct(y, z);
    assert CatOf(Times(Times(Adder(w), Adder(x)), Adder(z))) == Category(Connector, z, w, Cross(Connector, w, x) + Cross(Connector, x, z)) by {
      assert Substitute(z, x) == z && Substitute(w, z) == w;
    }
    var oy := Times(Zero, Adder(y));
    assert CatOf(oy) == Category(Connector, y, {}, {});
    assert CatOf(Times(oy, Adder(z))) == Category(Connector, z, {}, Cross(Connector, y, z)) by {
      assert Substitute(z, y) == z && Substitute({}, z) == {};
    }
  }

  lemma ZeroInMiddle(w: set<Endpoint>, x: set<Endpoint>, y: set<Endpoint>, z: set<Endpoint>)
    requires IdEnd !in w && IdEnd !in x && IdEnd !in y && IdEnd !in z
    ensures var factored := Times(Times(Adder(w), Plus(Adder(x), Times(Zero, Adder(y)))), Adder(z));
      CatOf(factored) == Category(Connector, z, w, Cross(Connector, w, x) + Cross(Connector, x, z) + Cross(Connector, y, z))
  {
    var inner := Plus(Adder(x), Times(Zero, Adder(y)));
    assert CatOf(inner) == Category(Connector, x + y, x, {});
    var winner := Times(Adder(w), inner);
    assert CatOf(winner) == Category(Connector, x + y, w, Cross(Connector, w, x)) by {
      assert Substitute(x + y, w) == x + y && Substitute(w, x) == w;
    }
    assert CatOf(Times(winner, Adder(z))) == Category(Connector, z, w, Cross(Connector, w, x) + Cross(Connector, x + y, z)) by {
      assert Substitute(z, x + y) == z && Substitute(w, z) == w;
    }
    assert Cross(Connector, x + y, z) == Cross(Connector, x, z) + Cross(Connector, y, z);
  }

  /**
   * The termination doctests, with 1, 2, 3, 4 for a, b, c, d:
   * `C(a) * C(b) * C(d) + O * C(c) * C(d) == C(a) * (C(b) + O * C(c)) * C(d)`, both making a->b,
   * b->d and c->d.
   */
  lemma ZeroTerminatesLooseEnds(a: int, b: int, c: int, d: int)
    ensures var sum := Plus(Times(Times(C1(a), C1(b)), C1(d)), Times(Times(Zero, C1(c)), C1(d)));
      CatOf(sum).operations == {Link(a, b), Link(b, d), Link(c, d)}
    ensures TermEq(Plus(Times(Times(C1(a), C1(b)), C1(d)), Times(Times(Zero, C1(c)), C1(d))),
      Times(Times(C1(a), Plus(C1(b), Times(Zero, C1(c)))), C1(d)))
  {
    ZeroFactorsOut({Atom(a)}, {Atom(b)}, {Atom(c)}, {Atom(d)});
    ThreeLinks(a, b, c, d);
  }

  /**
   * Without the `O`, `C(a) * C(b) * C(d) + C(c) * C(d)` makes the same connections, yet c is a
   * loose sink and `==` to the factored form fails.
   */
  lemma LooseEndBreaksEquality(a: int, b: int, c: int, d: int)
    requires a != c
    ensures var bare := Plus(Times(Times(C1(a), C1(b)), C1(d)), Times(C1(c), C1(d)));
      CatOf(bare).operations == {Link(a, b), Link(b, d), Link(c, d)}
    ensures !TermEq(Plus(Times(Times(C1(a), C1(b)), C1(d)), Times(C1(c), C1(d))),
      Times(Times(C1(a), Plus(C1(b), Times(Zero, C1(c)))), C1(d)))
  {
    ZeroFactorsOut({Atom(a)}, {Atom(b)}, {Atom(c)}, {Atom(d)});
    ThreeLinks(a, b, c, d);
    assert Atom(c) in {Atom(a)} + {Atom(c)};
  }

  lemma ThreeLinks(a: int, b: int, c: int, d: int)
    ensures Cross(Connector, {Atom(a)}, {Atom(b)}) + Cross(Connector, {Atom(b)}, {Atom(d)}) + Cross(Connector, {Atom(c)}, {Atom(d)})
      == {Link(a, b), Link(b, d), Link(c, d)}
  {
    CrossOfOneAndOne(a, b);
    CrossOfOneAndOne(b, d);
    CrossOfOneAndOne(c, d);
  }
}
