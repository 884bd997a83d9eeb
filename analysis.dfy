/** analysis.py: shape queries on the tree of a term and the rewrites that re-shape it. */
module Analysis {
  import opened Wrappers
  import opened Endpoints
  import opened Operation
  import opened Category
  import opened CategoryOperations
  import opened Term
  import opened ProcessedTerms
  import opened TermLaws
  import opened Strings

  /** `TermIs.terminal`: no tree node (Identity, Zero or a leaf set). */
  predicate IsTerminal(t: Term) { !t.Mediate? }

  /** `TermIs.arrow`. */
  predicate IsArrow(t: Term) { t.Mediate? && t.processed.operation == ARROW }

  /** `TermIs.add`. */
  predicate IsAdd(t: Term) { t.Mediate? && t.processed.operation == ADD }

  /** `TermIs.discard`. */
  predicate IsDiscard(t: Term) { t.Mediate? && t.processed.operation == DISCARD }

  /** Every term is of exactly one kind. */
  lemma ExactlyOneKind(t: Term)
    ensures IsTerminal(t) || IsArrow(t) || IsAdd(t) || IsDiscard(t)
    ensures IsTerminal(t) ==> !IsArrow(t) && !IsAdd(t) && !IsDiscard(t)
    ensures IsArrow(t) ==> !IsAdd(t) && !IsDiscard(t)
    ensures IsAdd(t) ==> !IsDiscard(t)
  {
  }

  /** `Get.head`: the term itself when terminal, the left operand of a product, None otherwise. */
  function Head(t: Term): (r: Option<Term>)
    ensures r.Some? <==> IsTerminal(t) || IsArrow(t)
  {
    if IsTerminal(t) then Some(t)
    else if IsArrow(t) then Some(t.processed.sink)
    else None
  }

  /** `Get.tail`: the term itself when terminal, the right operand of a product, None otherwise. */
  function Tail(t: Term): (r: Option<Term>)
    ensures r.Some? <==> IsTerminal(t) || IsArrow(t)
  {
    if IsTerminal(t) then Some(t)
    else if IsArrow(t) then Some(t.processed.source)
    else None
  }

  /** A product is its head times its tail; a terminal is its own head and tail. */
  lemma HeadTimesTail(t: Term)
    requires WellFormed(t)
    ensures IsArrow(t) ==> t == Times(Head(t).value, Tail(t).value)
    ensures IsTerminal(t) ==> Head(t) == Tail(t) == Some(t)
  {
  }

  /** A product of well-formed terms is well formed, and Zero-free when they are. */
  lemma TimesKeepsForm(a: Term, b: Term)
    requires WellFormed(a) && WellFormed(b)
    ensures WellFormed(Times(a, b)) && IsArrow(Times(a, b))
    ensures ZeroFree(a) && ZeroFree(b) ==> ZeroFree(Times(a, b))
  {
    TimesRecordsNode(a, b);
  }

  /** A sum of well-formed terms is well formed, and Zero-free when they are. */
  lemma PlusKeepsForm(a: Term, b: Term)
    requires WellFormed(a) && WellFormed(b)
    ensures WellFormed(Plus(a, b)) && IsAdd(Plus(a, b))
    ensures ZeroFree(a) && ZeroFree(b) ==> ZeroFree(Plus(a, b))
  {
  }

  /** Python's `x != y` on two results of `Get.head`/`Get.tail`. */
  predicate Differ(x: Option<Term>, y: Option<Term>)
  {
    if x.None? then y.Some?
    else if y.None? then true
    else !TermEq(x.value, y.value)
  }

  // ---------------------------------------------------------------- identity_off

  /** `Equal.identity_off`: drops every factor `== I` along the product spine. */
  function IdentityOff(t: Term): (r: Term)
    ensures !IsArrow(t) ==> r == t
  {
    if IsArrow(t) then
      if TermEq(t.processed.sink, Identity) then IdentityOff(t.processed.source)
      else if TermEq(t.processed.source, Identity) then IdentityOff(t.processed.sink)
      else Times(IdentityOff(t.processed.sink), IdentityOff(t.processed.source))
    else t
  }

  /** No product along the spine has an operand `== I`. */
  predicate NoIdentityFactor(t: Term)
  {
    IsArrow(t) ==>
      && !TermEq(t.processed.sink, Identity) && !TermEq(t.processed.source, Identity)
      && NoIdentityFactor(t.processed.sink) && NoIdentityFactor(t.processed.source)
  }

  /** On Zero-free terms `identity_off` keeps the meaning and leaves no factor `== I`. */
  lemma {:induction false} IdentityOffKeepsMeaning(t: Term)
    requires WellFormed(t) && ZeroFree(t)
    ensures WellFormed(IdentityOff(t)) && ZeroFree(IdentityOff(t))
    ensures CatOf(IdentityOff(t)) == CatOf(t)
    ensures NoIdentityFactor(IdentityOff(t))
  {
    if IsArrow(t) {
      var l, r := t.processed.sink, t.processed.source;
      assert t == Times(l, r);
      IdentityOffKeepsMeaning(l);
      IdentityOffKeepsMeaning(r);
      WellFormedIsSound(l);
      WellFormedIsSound(r);
      TimesIsCompose(l, r);
      if TermEq(l, Identity) {
        assert CatOf(l) == IdentitySets;
        ComposeWithIdentity(CatOf(r));
      } else if TermEq(r, Identity) {
        assert CatOf(r) == IdentitySets;
        ComposeWithIdentity(CatOf(l));
      } else {
        var l', r' := IdentityOff(l), IdentityOff(r);
        TimesKeepsForm(l', r');
        TimesIsCompose(l', r');
        TimesRecordsNode(l', r');
      }
    }
  }

  /** On terms with Zero it does not: `identity_off(O * I)` is `O`, but `O * I != O`. */
  lemma IdentityOffChangesZeroTimesIdentity()
    ensures IdentityOff(Times(Zero, Identity)) == Zero
    ensures !TermEq(Times(Zero, Identity), Zero)
  {
    TimesRecordsNode(Zero, Identity);
    assert IdEnd in CatOf(Times(Zero, Identity)).sources;
  }

  lemma IdentityOffDoctests()
    ensures IdentityOff(C1(1)) == C1(1)
    ensures IdentityOff(Times(C1(1), Identity)) == C1(1)
    ensures IdentityOff(Times(Identity, C1(1))) == C1(1)
    ensures IdentityOff(Times(C1(2), C1(1))) == Times(C1(2), C1(1))
    ensures IdentityOff(Times(Times(C1(2), Identity), C1(1))) == Times(C1(2), C1(1))
  {
    TimesRecordsNode(C1(1), Identity);
    TimesRecordsNode(Identity, C1(1));
    TimesRecordsNode(C1(2), C1(1));
    TimesRecordsNode(C1(2), Identity);
    TimesRecordsNode(Times(C1(2), Identity), C1(1));
    assert IdEnd !in CatOf(C1(1)).sinks && IdEnd !in CatOf(C1(2)).sinks;
    assert IdEnd !in CatOf(Times(C1(2), Identity)).sinks;
  }

  // ---------------------------------------------------------------- swap_head, swap_tail

  /** `Equal.swap_head`: `(A + B) + C` to `A + (B + C)`, `(A * B) * C` to `A * (B * C)`, otherwise None. */
  function SwapHead(t: Term): (r: Option<Term>)
    ensures r.Some? <==> (IsAdd(t) && IsAdd(t.processed.sink)) || (IsArrow(t) && IsArrow(t.processed.sink))
  {
    if IsAdd(t) && IsAdd(t.processed.sink) then
      var ab, c := t.processed.sink, t.processed.source;
      Some(Plus(ab.processed.sink, Plus(ab.processed.source, c)))
    else if IsArrow(t) && IsArrow(t.processed.sink) then
      var ab, c := t.processed.sink, t.processed.source;
      Some(Times(ab.processed.sink, Times(ab.processed.source, c)))
    else None
  }

  /** `Equal.swap_tail`: `A + (B + C)` to `(A + B) + C`, `A * (B * C)` to `(A * B) * C`, otherwise None. */
  function SwapTail(t: Term): (r: Option<Term>)
    ensures r.Some? <==> (IsAdd(t) && IsAdd(t.processed.source)) || (IsArrow(t) && IsArrow(t.processed.source))
  {
    if IsAdd(t) && IsAdd(t.processed.source) then
      var a, bc := t.processed.sink, t.processed.source;
      Some(Plus(Plus(a, bc.processed.sink), bc.processed.source))
    else if IsArrow(t) && IsArrow(t.processed.source) then
      var a, bc := t.processed.sink, t.processed.source;
      Some(Times(Times(a, bc.processed.sink), bc.processed.source))
    else None
  }

  /** Each swap undoes the other on well-formed terms. */
  lemma SwapsAreInverse(t: Term)
    requires WellFormed(t)
    ensures SwapHead(t).Some? ==> SwapTail(SwapHead(t).value) == Some(t)
    ensures SwapTail(t).Some? ==> SwapHead(SwapTail(t).value) == Some(t)
  {
    if IsArrow(t) {
      var l, r := t.processed.sink, t.processed.source;
      if IsArrow(l) {
        TimesRecordsNode(l.processed.source, r);
        TimesRecordsNode(l.processed.sink, Times(l.processed.source, r));
      }
      if IsArrow(r) {
        TimesRecordsNode(l, r.processed.sink);
        TimesRecordsNode(Times(l, r.processed.sink), r.processed.source);
      }
    }
  }

  /** On Zero-free terms both swaps keep the meaning. */
  lemma SwapsKeepMeaning(t: Term)
    requires WellFormed(t) && ZeroFree(t)
    ensures SwapHead(t).Some? ==> CatOf(SwapHead(t).value) == CatOf(t)
    ensures SwapTail(t).Some? ==> CatOf(SwapTail(t).value) == CatOf(t)
  {
    if IsAdd(t) {
      var l, r := t.processed.sink, t.processed.source;
      if IsAdd(l) {
        PlusAssociates(l.processed.sink, l.processed.source, r);
      }
      if IsAdd(r) {
        PlusAssociates(l, r.processed.sink, r.processed.source);
      }
    } else if IsArrow(t) {
      var l, r := t.processed.sink, t.processed.source;
      if IsArrow(l) {
        ProductSwapKeepsMeaning(l.processed.sink, l.processed.source, r);
      }
      if IsArrow(r) {
        ProductSwapKeepsMeaning(l, r.processed.sink, r.processed.source);
      }
    }
  }

  /**
   * The `swap_tail` doctests, with x, y, z standing for `C(1)`, `C(2)`, `C(3)`: the source of
   * `x + (y + z)` is `y + z`, swapping it gives `(x + y) + z`, and swapping `x * (y * z)` gives a
   * product whose sink is `x * y`.
   */
  lemma SwapTailDoctests(x: Term, y: Term, z: Term)
    ensures Plus(x, Plus(y, z)).processed.source == Plus(y, z)
    ensures SwapTail(Plus(x, Plus(y, z))) == Some(Plus(Plus(x, y), z))
    ensures var r := SwapTail(Times(x, Times(y, z)));
      r.Some? && r.value.Mediate? && r.value.processed.sink == Times(x, y)
  {
    TimesRecordsNode(y, z);
    TimesRecordsNode(x, Times(y, z));
    TimesRecordsNode(Times(x, y), z);
  }

  /**
   * The `swap_head` doctests, with x, y, z standing for `C(1)`, `C(2)`, `C(3)`: the source of
   * `(x + y) + z` is z, swapping it gives `x + (y + z)`, and swapping `(x * y) * z` gives a
   * product whose source is `y * z`.
   */
  lemma SwapHeadDoctests(x: Term, y: Term, z: Term)
    ensures Plus(Plus(x, y), z).processed.source == z
    ensures SwapHead(Plus(Plus(x, y), z)) == Some(Plus(x, Plus(y, z)))
    ensures var r := SwapHead(Times(Times(x, y), z));
      r.Some? && r.value.Mediate? && r.value.processed.source == Times(y, z)
  {
    TimesRecordsNode(x, y);
    TimesRecordsNode(Times(x, y), z);
    TimesRecordsNode(x, Times(y, z));
  }

  /** `(a * b) * c` and `a * (b * c)` carry the same sets when no operand holds a Zero. */
  lemma ProductSwapKeepsMeaning(a: Term, b: Term, c: Term)
    requires WellFormed(a) && WellFormed(b) && WellFormed(c)
    requires ZeroFree(a) && ZeroFree(b) && ZeroFree(c)
    ensures CatOf(Times(Times(a, b), c)) == CatOf(Times(a, Times(b, c)))
  {
    WellFormedIsSound(a);
    WellFormedIsSound(b);
    WellFormedIsSound(c);
    ZeroFreeIsIdSymmetric(b);
    TimesKeepsForm(a, b);
    TimesKeepsForm(b, c);
    TimesIsCompose(a, b);
    TimesIsCompose(b, c);
    TimesIsCompose(Times(a, b), c);
    TimesIsCompose(a, Times(b, c));
    ComposeAssociative(CatOf(a), CatOf(b), CatOf(c));
  }

  // ---------------------------------------------------------------- head_out, tail_out

  /** `head_out` fails when both addends of a sum have no head: it then multiplies None. */
  predicate HeadOutDefined(t: Term)
  {
    !(IsAdd(t) && Head(t.processed.sink).None? && Head(t.processed.source).None?)
  }

  /**
   * `Equal.head_out`: `t * I` for terminals, differences and sums of differing heads, `A * (I * B)`
   * for `A * B`, and `H * (X' + Y')` for a sum of two terms with the common head H.
   */
  function HeadOut(t: Term): (r: Term)
    requires HeadOutDefined(t)
    ensures IsArrow(r)
  {
    if IsTerminal(t) || IsDiscard(t) then
      TimesRecordsNode(t, Identity);
      Times(t, Identity)
    else if IsArrow(t) then
      TimesRecordsNode(t.processed.sink, Times(Identity, t.processed.source));
      Times(t.processed.sink, Times(Identity, t.processed.source))
    else
      var l, r := t.processed.sink, t.processed.source;
      var hl, hr := Head(l), Head(r);
      if Differ(hl, hr) then
        TimesRecordsNode(t, Identity);
        Times(t, Identity)
      else
        var x, y := HeadOut(l).processed.source, HeadOut(r).processed.source;
        TimesRecordsNode(hl.value, Plus(x, y));
        Times(hl.value, Plus(x, y))
  }

  /** `tail_out` fails in the same way when both addends of a sum have no tail. */
  predicate TailOutDefined(t: Term)
  {
    !(IsAdd(t) && Tail(t.processed.sink).None? && Tail(t.processed.source).None?)
  }

  /**
   * `Equal.tail_out`: `I * t` for terminals, differences and sums of differing tails, `(A * I) * B`
   * for `A * B`, and `(X' + Y') * T` for a sum of two terms with the common tail T.
   */
  function TailOut(t: Term): (r: Term)
    requires TailOutDefined(t)
    ensures IsArrow(r)
  {
    if IsTerminal(t) || IsDiscard(t) then
      TimesRecordsNode(Identity, t);
      Times(Identity, t)
    else if IsArrow(t) then
      TimesRecordsNode(Times(t.processed.sink, Identity), t.processed.source);
      Times(Times(t.processed.sink, Identity), t.processed.source)
    else
      var l, r := t.processed.sink, t.processed.source;
      var tl, tr := Tail(l), Tail(r);
      if Differ(tl, tr) then
        TimesRecordsNode(Identity, t);
        Times(Identity, t)
      else
        var x, y := TailOut(l).processed.sink, TailOut(r).processed.sink;
        TimesRecordsNode(Plus(x, y), tl.value);
        Times(Plus(x, y), tl.value)
  }

  /** The crash condition is exactly a sum whose addends are both sums or differences. */
  lemma FactoringFailsOnlyOnSumsOfSums(t: Term)
    ensures !HeadOutDefined(t) <==> (
      && IsAdd(t)
      && !IsTerminal(t.processed.sink) && !IsArrow(t.processed.sink)
      && !IsTerminal(t.processed.source) && !IsArrow(t.processed.source))
    ensures HeadOutDefined(t) <==> TailOutDefined(t)
  {
  }

  lemma HeadOutDoctests()
    ensures HeadOut(C1(1)) == Times(C1(1), Identity)
    ensures HeadOut(Times(C1(1), C1(2))) == Times(C1(1), Times(Identity, C1(2)))
    ensures var t := Plus(Times(C1(1), C1(2)), Times(C1(1), C1(3)));
      HeadOut(t) == Times(C1(1), Plus(Times(Identity, C1(2)), Times(Identity, C1(3))))
    ensures var t := Plus(Times(C1(1), C1(2)), Times(C1(2), C1(3)));
      HeadOut(t) == Times(t, Identity)
    ensures HeadOut(Minus(C1(1), C1(2))) == Times(Minus(C1(1), C1(2)), Identity)
  {
    TimesRecordsNode(C1(1), C1(2));
    TimesRecordsNode(C1(1), C1(3));
    TimesRecordsNode(C1(2), C1(3));
    TimesRecordsNode(C1(1), Times(Identity, C1(2)));
    TimesRecordsNode(C1(1), Times(Identity, C1(3)));
    assert Atom(1) in CatOf(C1(1)).sinks && Atom(1) !in CatOf(C1(2)).sinks;
  }

  lemma TailOutDoctests()
    ensures TailOut(C1(1)) == Times(Identity, C1(1))
    ensures TailOut(Times(C1(1), C1(2))) == Times(Times(C1(1), Identity), C1(2))
    ensures var t := Plus(Times(C1(1), C1(3)), Times(C1(2), C1(3)));
      TailOut(t) == Times(Plus(Times(C1(1), Identity), Times(C1(2), Identity)), C1(3))
    ensures var t := Plus(Times(C1(1), C1(2)), Times(C1(2), C1(3)));
      TailOut(t) == Times(Identity, t)
    ensures TailOut(Minus(C1(1), C1(2))) == Times(Identity, Minus(C1(1), C1(2)))
  {
    TimesRecordsNode(C1(1), C1(2));
    TimesRecordsNode(C1(1), C1(3));
    TimesRecordsNode(C1(2), C1(3));
    TimesRecordsNode(Times(C1(1), Identity), C1(3));
    TimesRecordsNode(Times(C1(2), Identity), C1(3));
    assert Atom(2) in CatOf(C1(2)).sinks && Atom(2) !in CatOf(C1(3)).sinks;
  }

  /** What `head_out` leaves of an addend with a head: composed after that head it gives the addend back. */
  lemma HeadOutRemainder(l: Term)
    requires WellFormed(l) && ZeroFree(l) && (IsTerminal(l) || IsArrow(l))
    ensures var x := HeadOut(l).processed.source;
      && WellFormed(x) && ZeroFree(x) && !Head(l).value.Zero?
      && WellFormed(Head(l).value) && ZeroFree(Head(l).value)
      && ComposeCat(CatOf(Head(l).value), CatOf(x)) == CatOf(l)
  {
    WellFormedIsSound(l);
    TimesRecordsNode(l, Identity);
    if IsArrow(l) {
      var a, b := l.processed.sink, l.processed.source;
      TimesRecordsNode(a, Times(Identity, b));
      TimesKeepsForm(Identity, b);
      LeftIdentityAndZero(b);
      TimesIsCompose(a, b);
    } else {
      ComposeWithIdentity(CatOf(l));
    }
  }

  /** On Zero-free terms `head_out` keeps the meaning. */
  lemma HeadOutKeepsMeaning(t: Term)
    requires WellFormed(t) && ZeroFree(t) && HeadOutDefined(t)
    ensures WellFormed(HeadOut(t)) && ZeroFree(HeadOut(t))
    ensures CatOf(HeadOut(t)) == CatOf(t)
  {
    WellFormedIsSound(t);
    if IsTerminal(t) || IsDiscard(t) {
      TimesKeepsForm(t, Identity);
    } else if IsArrow(t) {
      var l, r := t.processed.sink, t.processed.source;
      TimesKeepsForm(Identity, r);
      TimesKeepsForm(l, Times(Identity, r));
      LeftIdentityAndZero(r);
      TimesIsCompose(l, Times(Identity, r));
      TimesIsCompose(l, r);
    } else {
      var l, r := t.processed.sink, t.processed.source;
      if Differ(Head(l), Head(r)) {
        TimesKeepsForm(t, Identity);
      } else {
        var h := Head(l).value;
        var x, y := HeadOut(l).processed.source, HeadOut(r).processed.source;
        HeadOutRemainder(l);
        HeadOutRemainder(r);
        assert CatOf(Head(r).value) == CatOf(h);
        PlusKeepsForm(x, y);
        TimesKeepsForm(h, Plus(x, y));
        TimesIsCompose(h, Plus(x, y));
        WellFormedIsSound(h);
        WellFormedIsSound(x);
        WellFormedIsSound(y);
        ComposeDistributes(CatOf(h), CatOf(x), CatOf(y));
      }
    }
  }

  /** What `tail_out` leaves of an addend with a tail: composed before that tail it gives the addend back. */
  lemma TailOutRemainder(l: Term)
    requires WellFormed(l) && ZeroFree(l) && (IsTerminal(l) || IsArrow(l))
    ensures var x := TailOut(l).processed.sink;
      && WellFormed(x) && ZeroFree(x) && !Tail(l).value.Zero?
      && WellFormed(Tail(l).value) && ZeroFree(Tail(l).value)
      && ComposeCat(CatOf(x), CatOf(Tail(l).value)) == CatOf(l)
  {
    WellFormedIsSound(l);
    TimesRecordsNode(Identity, l);
    if IsArrow(l) {
      var a, b := l.processed.sink, l.processed.source;
      TimesRecordsNode(Times(a, Identity), b);
      TimesKeepsForm(a, Identity);
      TimesIsCompose(a, Identity);
      WellFormedIsSound(a);
      ComposeWithIdentity(CatOf(a));
      TimesIsCompose(a, b);
    } else {
      ComposeWithIdentity(CatOf(l));
    }
  }

  /** On Zero-free terms `tail_out` keeps the meaning. */
  lemma TailOutKeepsMeaning(t: Term)
    requires WellFormed(t) && ZeroFree(t) && TailOutDefined(t)
    ensures WellFormed(TailOut(t)) && ZeroFree(TailOut(t))
    ensures CatOf(TailOut(t)) == CatOf(t)
  {
    WellFormedIsSound(t);
    if IsTerminal(t) || IsDiscard(t) {
      TimesKeepsForm(Identity, t);
    } else if IsArrow(t) {
      var l, r := t.processed.sink, t.processed.source;
      WellFormedIsSound(l);
      TimesKeepsForm(l, Identity);
      TimesKeepsForm(Times(l, Identity), r);
      TimesIsCompose(l, Identity);
      ComposeWithIdentity(CatOf(l));
      TimesIsCompose(Times(l, Identity), r);
      TimesIsCompose(l, r);
    } else {
      var l, r := t.processed.sink, t.processed.source;
      if Differ(Tail(l), Tail(r)) {
        TimesKeepsForm(Identity, t);
      } else {
        var h := Tail(l).value;
        var x, y := TailOut(l).processed.sink, TailOut(r).processed.sink;
        TailOutRemainder(l);
        TailOutRemainder(r);
        assert CatOf(Tail(r).value) == CatOf(h);
        PlusKeepsForm(x, y);
        TimesKeepsForm(Plus(x, y), h);
        TimesIsCompose(Plus(x, y), h);
        WellFormedIsSound(h);
        WellFormedIsSound(x);
        WellFormedIsSound(y);
        ComposeDistributes(CatOf(h), CatOf(x), CatOf(y));
      }
    }
  }

  // ---------------------------------------------------------------- topmost_sums, tail_products

  /** `Get.topmost_sums`: the leaves of the top-level `+` tree, left to right; differences yield nothing. */
  function TopmostSums(t: Term): (r: seq<Term>)
    ensures forall x :: x in r ==> IsTerminal(x) || IsArrow(x)
  {
    if IsTerminal(t) || IsArrow(t) then [t]
    else if IsAdd(t) then TopmostSums(t.processed.sink) + TopmostSums(t.processed.source)
    else []
  }

  /** The sets of the `+` of a list of terms, starting from those of O. */
  function UnionAll(xs: seq<Term>): Category
  {
    if |xs| == 0 then CatOf(Zero) else UnionCat(UnionAll(xs[..|xs| - 1]), CatOf(xs[|xs| - 1]))
  }

  lemma {:induction false} UnionAllAppend(xs: seq<Term>, ys: seq<Term>)
    ensures UnionAll(xs + ys) == UnionCat(UnionAll(xs), UnionAll(ys))
    decreases |ys|
  {
    if |ys| == 0 {
      assert xs + ys == xs;
    } else {
      var init := ys[..|ys| - 1];
      assert (xs + ys)[..|xs + ys| - 1] == xs + init;
      UnionAllAppend(xs, init);
    }
  }

  /** No difference occurs in the top-level `+` tree. */
  predicate SumsHaveNoDiscard(t: Term)
  {
    !IsDiscard(t) && (IsAdd(t) ==> SumsHaveNoDiscard(t.processed.sink) && SumsHaveNoDiscard(t.processed.source))
  }

  /** Without differences in it, the sum of the topmost sums is the term. */
  lemma {:induction false} TopmostSumsAddUp(t: Term)
    requires WellFormed(t) && SumsHaveNoDiscard(t)
    ensures CatOf(t) == UnionAll(TopmostSums(t))
  {
    WellFormedIsSound(t);
    if IsAdd(t) {
      var l, r := t.processed.sink, t.processed.source;
      TopmostSumsAddUp(l);
      TopmostSumsAddUp(r);
      UnionAllAppend(TopmostSums(l), TopmostSums(r));
      WellFormedIsSound(l);
    } else {
      assert UnionAll([t]) == UnionCat(CatOf(Zero), CatOf(t)) by {
        assert [t][..0] == [];
      }
    }
  }

  lemma TopmostSumsDoctest()
    ensures var t := Plus(Plus(C1(1), Times(C1(2), C1(3))), Times(Times(C1(1), C1(3)), C1(4)));
      TopmostSums(t) == [C1(1), Times(C1(2), C1(3)), Times(Times(C1(1), C1(3)), C1(4))]
  {
    TimesRecordsNode(C1(2), C1(3));
    TimesRecordsNode(Times(C1(1), C1(3)), C1(4));
  }

  /** The rightmost factor of a product chain: the term itself when it is not a product. */
  function RightmostFactor(t: Term): (r: Term)
    ensures !IsArrow(r)
  {
    if IsArrow(t) then RightmostFactor(t.processed.source) else t
  }

  /** Each term of `xs` multiplied by `s`. */
  function TimesAll(xs: seq<Term>, s: Term): (r: seq<Term>)
    ensures |r| == |xs| && forall i :: 0 <= i < |xs| ==> r[i] == Times(xs[i], s)
  {
    if |xs| == 0 then [] else [Times(xs[0], s)] + TimesAll(xs[1..], s)
  }

  /**
   * `Get.tail_products`: a terminal or sum yields itself, a difference nothing; a product `A * B`
   * yields each tail product of A times B and then those of B, unless B yields nothing. The list is
   * empty exactly when the rightmost factor is a difference, and otherwise ends with that factor.
   */
  function TailProducts(t: Term): (r: seq<Term>)
    ensures r == [] <==> IsDiscard(RightmostFactor(t))
    ensures r != [] ==> r[|r| - 1] == RightmostFactor(t)
  {
    if IsTerminal(t) || IsAdd(t) then [t]
    else if IsArrow(t) then
      var right := TailProducts(t.processed.source);
      if |right| > 0 then TimesAll(TailProducts(t.processed.sink), t.processed.source) + right else []
    else []
  }

  /** No factor along the product spine is a difference. */
  predicate NoDiscardFactor(t: Term)
  {
    !IsDiscard(t) && (IsArrow(t) ==> NoDiscardFactor(t.processed.sink) && NoDiscardFactor(t.processed.source))
  }

  /** The number of factors along the product spine. */
  function FactorCount(t: Term): (n: nat)
    ensures n >= 1
  {
    if IsArrow(t) then FactorCount(t.processed.sink) + FactorCount(t.processed.source) else 1
  }

  /** Without differences among the factors, the list starts with the term and has one entry per factor. */
  lemma {:induction false} TailProductsOfFactors(t: Term)
    requires WellFormed(t) && NoDiscardFactor(t)
    ensures |TailProducts(t)| == FactorCount(t)
    ensures TailProducts(t)[0] == t
  {
    if IsArrow(t) {
      var l, r := t.processed.sink, t.processed.source;
      TailProductsOfFactors(l);
      TailProductsOfFactors(r);
      RightmostFactorIsNoDiscard(r);
      assert t == Times(l, r);
      assert TailProducts(t) == TimesAll(TailProducts(l), r) + TailProducts(r);
    }
  }

  lemma {:induction false} RightmostFactorIsNoDiscard(t: Term)
    requires NoDiscardFactor(t)
    ensures !IsDiscard(RightmostFactor(t))
  {
    if IsArrow(t) {
      RightmostFactorIsNoDiscard(t.processed.source);
    }
  }

  /** A product's tail products: those of its left operand times its right one, then the right one's. */
  lemma TailProductsOfProduct(x: Term, y: Term)
    requires TailProducts(y) != []
    ensures TailProducts(Times(x, y)) == TimesAll(TailProducts(x), y) + TailProducts(y)
  {
    TimesRecordsNode(x, y);
  }

  /** A terminal or a sum is its own only tail product. */
  lemma YieldsItself(t: Term)
    requires IsTerminal(t) || IsAdd(t)
    ensures TailProducts(t) == [t]
  {
  }

  /** A chain of three factors, each a terminal or a sum, yields itself, its last two factors' product and the last. */
  lemma TailProductsOfChain(a: Term, b: Term, c: Term)
    requires IsTerminal(a) || IsAdd(a)
    requires IsTerminal(b) || IsAdd(b)
    requires IsTerminal(c) || IsAdd(c)
    ensures TailProducts(Times(Times(a, b), c)) == [Times(Times(a, b), c), Times(b, c), c]
  {
    var ab := Times(a, b);
    YieldsItself(a);
    YieldsItself(b);
    YieldsItself(c);
    TailProductsBeforeSingle(a, [a], b);
    TimesAllOfTwo(a, a, b);
    TailProductsBeforeSingle(ab, [ab, b], c);
    TimesAllOfTwo(ab, b, c);
  }

  lemma TimesAllOfTwo(p: Term, q: Term, d: Term)
    ensures TimesAll([p], d) == [Times(p, d)]
    ensures TimesAll([p, q], d) == [Times(p, d), Times(q, d)]
  {
    var ys := TimesAll([p, q], d);
    assert |ys| == 2 && ys[0] == Times(p, d) && ys[1] == Times(q, d);
  }

  lemma TimesAllOfThree(p: Term, q: Term, r: Term, d: Term)
    ensures TimesAll([p, q, r], d) == [Times(p, d), Times(q, d), Times(r, d)]
  {
    var ys := TimesAll([p, q, r], d);
    assert |ys| == 3 && ys[0] == Times(p, d) && ys[1] == Times(q, d) && ys[2] == Times(r, d);
  }

  /** A product whose right operand yields only itself. */
  lemma TailProductsBeforeSingle(x: Term, xs: seq<Term>, d: Term)
    requires TailProducts(x) == xs && TailProducts(d) == [d]
    ensures TailProducts(Times(x, d)) == TimesAll(xs, d) + [d]
  {
    TailProductsOfProduct(x, d);
  }

  lemma TailProductsOfLongerChain(a: Term, b: Term, c: Term, d: Term)
    requires IsTerminal(a) && IsTerminal(b) && IsTerminal(c) && (IsTerminal(d) || IsAdd(d))
    ensures TailProducts(Times(Times(Times(a, b), c), d))
      == [Times(Times(Times(a, b), c), d), Times(Times(b, c), d), Times(c, d), d]
  {
    TailProductsOfChain(a, b, c);
    assert TailProducts(d) == [d];
    ThreeTailsBeforeSingle(Times(Times(a, b), c), Times(Times(a, b), c), Times(b, c), c, d);
  }

  /** Three tail products followed by a factor that yields only itself. */
  lemma ThreeTailsBeforeSingle(x: Term, p: Term, q: Term, r: Term, d: Term)
    requires TailProducts(x) == [p, q, r] && TailProducts(d) == [d]
    ensures TailProducts(Times(x, d)) == [Times(p, d), Times(q, d), Times(r, d), d]
  {
    TailProductsBeforeSingle(x, [p, q, r], d);
    TimesAllOfThree(p, q, r, d);
  }

  lemma TailProductsDoctest()
    ensures var s := Plus(Zero, C1(4));
      TailProducts(Times(Times(Times(C1(1), C1(2)), C1(3)), s))
      == [Times(Times(Times(C1(1), C1(2)), C1(3)), s), Times(Times(C1(2), C1(3)), s), Times(C1(3), s), s]
  {
    TailProductsOfLongerChain(C1(1), C1(2), C1(3), Plus(Zero, C1(4)));
  }

  /**
   * The second `tail_products` doctest: `C(1) * (C(2) + C(3)) * (O + C(4))` yields itself,
   * `(C(2) + C(3)) * (O + C(4))` and `O + C(4)`.
   */
  lemma TailProductsSumDoctest()
    ensures var p, s := Plus(C1(2), C1(3)), Plus(Zero, C1(4));
      TailProducts(Times(Times(C1(1), p), s)) == [Times(Times(C1(1), p), s), Times(p, s), s]
  {
    TailProductsOfChain(C1(1), Plus(C1(2), C1(3)), Plus(Zero, C1(4)));
  }

  // ---------------------------------------------------------------- all_terms

  /** What Python's set lookup of a term compares: its hash (taken of the printed text) and its sets (`==`). */
  datatype TermKey = TermKey(text: string, sets: Category)

  function Key(t: Term): TermKey
  {
    TermKey(Text(t), CatOf(t))
  }

  /** Two terms with one key are one element of a set of terms: the same printed text and `==`. */
  lemma KeyMeaning(a: Term, b: Term)
    ensures Key(a) == Key(b) <==> Text(a) == Text(b) && TermEq(a, b)
  {
    EqualsIsValueEquality(CatOf(a), Is(CatOf(b)));
  }

  /**
   * `t in all_terms` for the collected list `acc`, where `key` is the lookup key of the set
   * (`Key` for Python's sets of terms; the collection below does not depend on which).
   */
  predicate Holds(key: Term -> TermKey, acc: seq<Term>, t: Term)
  {
    exists x :: x in acc && key(x) == key(t)
  }

  /** x is t or a term reachable from t through operands. */
  predicate IsSubterm(x: Term, t: Term)
  {
    x == t || (t.Mediate? && (IsSubterm(x, t.processed.sink) || IsSubterm(x, t.processed.source)))
  }

  /** A set of terms: no element twice, no two elements with the same key. */
  predicate Distinct(key: Term -> TermKey, acc: seq<Term>)
  {
    && (forall x :: x in acc ==> multiset(acc)[x] <= 1)
    && (forall x, y :: x in acc && y in acc && x != y ==> key(x) != key(y))
  }

  /** What a list held stays held once it is extended. */
  lemma HeldStaysHeld(key: Term -> TermKey, acc: seq<Term>, r: seq<Term>)
    requires |acc| <= |r| && r[..|acc|] == acc
    ensures forall x :: Holds(key, acc, x) ==> Holds(key, r, x)
  {
    forall x | Holds(key, acc, x)
      ensures Holds(key, r, x)
    {
      var y :| y in acc && key(y) == key(x);
      assert y in r[..|acc|];
    }
  }

  /** What two operand visits after `acc'` add are subterms of the node t. */
  lemma NewEntriesAreSubterms(t: Term, acc: seq<Term>, acc': seq<Term>, r1: seq<Term>, r2: seq<Term>)
    requires t.Mediate?
    requires |acc| <= |acc'| <= |r1| <= |r2| && r2[..|r1|] == r1 && r1[..|acc'|] == acc'
    requires forall i :: |acc| <= i < |acc'| ==> acc'[i] == t
    requires forall i :: |acc'| <= i < |r1| ==> IsSubterm(r1[i], t.processed.sink)
    requires forall i :: |r1| <= i < |r2| ==> IsSubterm(r2[i], t.processed.source)
    ensures forall i :: |acc| <= i < |r2| ==> IsSubterm(r2[i], t)
  {
    forall i | |acc| <= i < |r2|
      ensures IsSubterm(r2[i], t)
    {
      if i < |acc'| {
        assert r2[i] == r1[i] == acc'[i];
      } else if i < |r1| {
        assert r2[i] == r1[i];
      }
    }
  }

  /**
   * `collect_terms` as written: a term whose key is already held is skipped together with its
   * operands. The list grows at the end, and what it gains are subterms of t.
   */
  function CollectAsWritten(key: Term -> TermKey, t: Term, acc: seq<Term>): (r: seq<Term>)
    ensures |acc| <= |r| && r[..|acc|] == acc
    ensures Holds(key, r, t)
    ensures forall i :: |acc| <= i < |r| ==> IsSubterm(r[i], t)
  {
    if Holds(key, acc, t) then acc
    else
      var acc' := acc + [t];
      assert Holds(key, acc', t) by {
        assert acc'[|acc|] == t;
        assert t in acc';
      }
      assert acc'[..|acc|] == acc;
      if t.Mediate? then
        var r1 := CollectAsWritten(key, t.processed.sink, acc');
        var r2 := CollectAsWritten(key, t.processed.source, r1);
        OperandVisits(key, t, acc, acc', r1, r2);
        r2
      else acc'
  }

  /** After the node's own step and the visits of its two operands, the list still meets the collection contract. */
  lemma OperandVisits(key: Term -> TermKey, t: Term, acc: seq<Term>, acc': seq<Term>, r1: seq<Term>, r2: seq<Term>)
    requires t.Mediate?
    requires |acc| <= |acc'| && acc'[..|acc|] == acc && Holds(key, acc', t)
    requires forall i :: |acc| <= i < |acc'| ==> acc'[i] == t
    requires |acc'| <= |r1| && r1[..|acc'|] == acc'
    requires forall i :: |acc'| <= i < |r1| ==> IsSubterm(r1[i], t.processed.sink)
    requires |r1| <= |r2| && r2[..|r1|] == r1
    requires forall i :: |r1| <= i < |r2| ==> IsSubterm(r2[i], t.processed.source)
    ensures |acc| <= |r2| && r2[..|acc|] == acc
    ensures Holds(key, r2, t)
    ensures forall i :: |acc| <= i < |r2| ==> IsSubterm(r2[i], t)
  {
    assert r2[..|acc'|] == acc' by {
      assert r2[..|r1|] == r1;
    }
    HeldStaysHeld(key, acc', r2);
    NewEntriesAreSubterms(t, acc, acc', r1, r2);
  }

  /** The subterms of a chain `(p * q) * r` of terminals. */
  lemma SubtermsOfChain(p: Term, q: Term, r: Term, x: Term)
    requires IsTerminal(p) && IsTerminal(q) && IsTerminal(r)
    requires IsSubterm(x, Times(Times(p, q), r))
    ensures x in {Times(Times(p, q), r), Times(p, q), p, q, r}
  {
    TimesRecordsNode(p, q);
    TimesRecordsNode(Times(p, q), r);
    if x != Times(Times(p, q), r) && !IsSubterm(x, r) {
      assert IsSubterm(x, Times(p, q));
      if x != Times(p, q) && !IsSubterm(x, q) {
        assert IsSubterm(x, p);
      }
    }
  }

  /**
   * Different trees with one key hide each other's operands: in `(p * q) * r + p * (q * r)` the
   * second addend is skipped, so `q * r` is never collected unless another subterm has its key.
   */
  lemma CollectAsWrittenSkipsOperands(key: Term -> TermKey, p: Term, q: Term, r: Term)
    requires IsTerminal(p) && IsTerminal(q) && IsTerminal(r)
    requires key(Times(Times(p, q), r)) == key(Times(p, Times(q, r)))
    requires var qr := key(Times(q, r));
      && key(Plus(Times(Times(p, q), r), Times(p, Times(q, r)))) != qr
      && key(Times(Times(p, q), r)) != qr && key(Times(p, q)) != qr
      && key(p) != qr && key(q) != qr && key(r) != qr
    ensures var t := Plus(Times(Times(p, q), r), Times(p, Times(q, r)));
      && IsSubterm(Times(q, r), t)
      && !Holds(key, CollectAsWritten(key, t, []), Times(q, r))
  {
    var a, b := Times(Times(p, q), r), Times(p, Times(q, r));
    var t := Plus(a, b);
    TimesRecordsNode(q, r);
    TimesRecordsNode(p, Times(q, r));
    assert IsSubterm(Times(q, r), b);
    var r1 := CollectAsWritten(key, a, [t]);
    assert CollectAsWritten(key, t, []) == CollectAsWritten(key, b, r1) by {
      assert !Holds(key, [], t);
      assert t.Mediate? && t.processed.sink == a && t.processed.source == b;
      assert [] + [t] == [t];
    }
    assert Holds(key, r1, b) by {
      var y :| y in r1 && key(y) == key(a);
    }
    forall x | x in r1
      ensures key(x) != key(Times(q, r))
    {
      var i :| 0 <= i < |r1| && r1[i] == x;
      if i > 0 {
        SubtermsOfChain(p, q, r, x);
      }
    }
  }

  /** The instance `(C(1) * C(2)) * C(3) + C(1) * (C(2) * C(3))`: `C(2) * C(3)` is never collected. */
  lemma CollectAsWrittenMissesSubterm()
    ensures var t := Plus(Times(Times(C1(1), C1(2)), C1(3)), Times(C1(1), Times(C1(2), C1(3))));
      && IsSubterm(Times(C1(2), C1(3)), t)
      && !Holds(Key, CollectAsWritten(Key, t, []), Times(C1(2), C1(3)))
  {
    var p, q, r := C1(1), C1(2), C1(3);
    var a, b := Times(Times(p, q), r), Times(p, Times(q, r));
    var op12, op23 := FreezedOperation(Connector, Atom(1), Atom(2)), FreezedOperation(Connector, Atom(2), Atom(3));
    var c12, c23 := Times(p, q), Times(q, r);
    assert Key(a) == Key(b) by {
      ArrowChainsPrintFlat(p, q, r);
      ProductSwapKeepsMeaning(p, q, r);
    }
    assert op23 in CatOf(c23).operations && op12 !in CatOf(c23).operations;
    assert op12 in CatOf(c12).operations;
    assert op12 in CatOf(a).operations;
    PlusUnites(a, b);
    assert op12 in CatOf(Plus(a, b)).operations;
    CollectAsWrittenSkipsOperands(Key, p, q, r);
  }

  /**
   * `collect_terms` as evidently intended: a term is added unless its key is already held, and its
   * operands are visited either way, so every subterm ends up held and no key is held twice.
   */
  function CollectEvery(key: Term -> TermKey, t: Term, acc: seq<Term>): (r: seq<Term>)
    ensures |acc| <= |r| && r[..|acc|] == acc
    ensures forall x :: IsSubterm(x, t) ==> Holds(key, r, x)
    ensures forall i :: |acc| <= i < |r| ==> IsSubterm(r[i], t)
    ensures Distinct(key, acc) ==> Distinct(key, r)
  {
    var acc' := if Holds(key, acc, t) then acc else acc + [t];
    assert Distinct(key, acc) ==> Distinct(key, acc') by {
      if Distinct(key, acc) && !Holds(key, acc, t) {
        assert t !in acc;
        assert multiset(acc') == multiset(acc) + multiset{t};
      }
    }
    assert Holds(key, acc', t) by {
      if !Holds(key, acc, t) {
        assert acc'[|acc|] == t;
        assert t in acc';
      }
    }
    assert forall i :: |acc| <= i < |acc'| ==> acc'[i] == t;
    if t.Mediate? then
      var r1 := CollectEvery(key, t.processed.sink, acc');
      var r2 := CollectEvery(key, t.processed.source, r1);
      assert acc'[..|acc|] == acc;
      OperandVisits(key, t, acc, acc', r1, r2);
      HeldStaysHeld(key, r1, r2);
      r2
    else
      assert forall x :: IsSubterm(x, t) ==> x == t;
      acc'
  }

  /** The set `all_terms` that `collect_terms` fills in place. */
  class TermCollector {
    var collected: seq<Term>

    constructor ()
      ensures collected == []
    {
      collected := [];
    }

    /** `collect_terms(t)`, with the operands visited even when t's key is already held. */
    method Collect(t: Term)
      modifies this
      ensures collected == CollectEvery(Key, t, old(collected))
    {
      if !Holds(Key, collected, t) {
        collected := collected + [t];
      }
      if t.Mediate? {
        Collect(t.processed.sink);
        Collect(t.processed.source);
      }
    }
  }

  /** Ascending by printed text (ties in either order). */
  predicate SortedByText(r: seq<Term>)
  {
    forall i, j :: 0 <= i < j < |r| ==> !TermLess(r[j], r[i])
  }

  /** `list.sort()` on terms, which compares printed texts: a sorted permutation. */
  method SortByText(xs: seq<Term>) returns (r: seq<Term>)
    ensures multiset(r) == multiset(xs)
    ensures SortedByText(r)
  {
    r := [];
    for n := 0 to |xs|
      invariant multiset(r) == multiset(xs[..n])
      invariant SortedByText(r)
    {
      r := InsertByText(r, xs[n]);
      assert xs[..n + 1] == xs[..n] + [xs[n]];
    }
    assert xs[..|xs|] == xs;
  }

  /** One insertion step: x goes after every term that does not print after it. */
  method InsertByText(r: seq<Term>, x: Term) returns (r': seq<Term>)
    requires SortedByText(r)
    ensures multiset(r') == multiset(r) + multiset{x}
    ensures SortedByText(r')
  {
    var i := 0;
    while i < |r| && !TermLess(x, r[i])
      invariant 0 <= i <= |r|
      invariant forall k :: 0 <= k < i ==> !TermLess(x, r[k])
    {
      i := i + 1;
    }
    forall k | i <= k < |r|
      ensures !TermLess(r[k], x)
    {
      TermLessIsStrictOrder(r[k], x, r[i]);
    }
    r' := r[..i] + [x] + r[i..];
    assert r == r[..i] + r[i..];
    InsertionKeepsSorted(r, x, i);
  }

  /** Placing x after the terms it does not print before and before the rest keeps the order. */
  lemma InsertionKeepsSorted(r: seq<Term>, x: Term, i: nat)
    requires i <= |r| && SortedByText(r)
    requires forall k :: 0 <= k < i ==> !TermLess(x, r[k])
    requires forall k :: i <= k < |r| ==> !TermLess(r[k], x)
    ensures SortedByText(r[..i] + [x] + r[i..])
  {
    var r' := r[..i] + [x] + r[i..];
    forall a, b | 0 <= a < b < |r'|
      ensures !TermLess(r'[b], r'[a])
    {
      if b < i {
        assert r'[a] == r[a] && r'[b] == r[b];
      } else if b == i {
        assert r'[a] == r[a] && r'[b] == x;
      } else if a < i {
        assert r'[a] == r[a] && r'[b] == r[b - 1];
      } else if a == i {
        assert r'[a] == x && r'[b] == r[b - 1];
      } else {
        assert r'[a] == r[a - 1] && r'[b] == r[b - 1];
      }
    }
  }

  /**
   * `Get.all_terms`: the term and its subterms, each key once, in printed-text order (with
   * operands visited as in `CollectEvery`).
   */
  method AllTerms(t: Term) returns (r: seq<Term>)
    ensures forall x :: x in r ==> IsSubterm(x, t)
    ensures forall x :: IsSubterm(x, t) ==> Holds(Key, r, x)
    ensures Distinct(Key, r)
    ensures SortedByText(r)
  {
    var collector := new TermCollector();
    collector.Collect(t);
    var collected := collector.collected;
    r := SortByText(collected);
    PermutationKeepsCollection(Key, t, collected, r);
  }

  /** Reordering a collection of t's subterms keeps what it holds and its distinctness. */
  lemma PermutationKeepsCollection(key: Term -> TermKey, t: Term, collected: seq<Term>, r: seq<Term>)
    requires collected == CollectEvery(key, t, []) && multiset(r) == multiset(collected)
    ensures forall x :: x in r ==> IsSubterm(x, t)
    ensures forall x :: IsSubterm(x, t) ==> Holds(key, r, x)
    ensures Distinct(key, r)
  {
    assert forall x :: x in r <==> x in collected by {
      assert forall x :: x in r <==> x in multiset(r);
    }
    assert Distinct(key, []);
    forall x | x in r
      ensures IsSubterm(x, t)
    {
      var i :| 0 <= i < |collected| && collected[i] == x;
    }
    forall x | IsSubterm(x, t)
      ensures Holds(key, r, x)
    {
      var y :| y in collected && key(y) == key(x);
    }
  }
  // ---------------------------------------------------------------- the all_terms doctest

  /** Strictly ascending by printed text, so no two entries print alike. */
  predicate StrictlySorted(r: seq<Term>)
  {
    forall i, j :: 0 <= i < j < |r| ==> TermLess(r[i], r[j])
  }

  /** Each entry printing before the next makes the whole list strictly ascending. */
  lemma {:induction false} ChainIsStrictlySorted(r: seq<Term>)
    requires forall i :: 0 <= i < |r| - 1 ==> TermLess(r[i], r[i + 1])
    ensures StrictlySorted(r)
  {
    if |r| > 1 {
      var tail := r[1..];
      forall i | 0 <= i < |tail| - 1
        ensures TermLess(tail[i], tail[i + 1])
      {
        assert tail[i] == r[i + 1] && tail[i + 1] == r[i + 2];
      }
      ChainIsStrictlySorted(tail);
      forall i, j | 0 <= i < j < |r|
        ensures TermLess(r[i], r[j])
      {
        if i > 0 {
          assert tail[i - 1] == r[i] && tail[j - 1] == r[j];
        } else if j > 1 {
          assert tail[0] == r[1] && tail[j - 1] == r[j];
          TermLessIsStrictOrder(r[0], r[1], r[j]);
        }
      }
    }
  }

  /** In a strictly ascending list, different entries print differently. */
  lemma StrictlySortedTextsDiffer(r: seq<Term>)
    requires StrictlySorted(r)
    ensures forall x, y :: x in r && y in r && x != y ==> Text(x) != Text(y)
  {
    forall x, y | x in r && y in r && x != y
      ensures Text(x) != Text(y)
    {
      var a :| 0 <= a < |r| && r[a] == x;
      var b :| 0 <= b < |r| && r[b] == y;
      StrLessIrreflexive(Text(x));
      StrLessIrreflexive(Text(y));
    }
  }

  /** A strictly ascending list is a set of terms in the sense of `all_terms`. */
  lemma {:induction false} StrictlySortedIsDistinct(r: seq<Term>)
    requires StrictlySorted(r)
    ensures Distinct(Key, r)
  {
    StrictlySortedTextsDiffer(r);
    if |r| > 0 {
      var tail := r[1..];
      assert StrictlySorted(tail) by {
        forall i, j | 0 <= i < j < |tail|
          ensures TermLess(tail[i], tail[j])
        {
          assert tail[i] == r[i + 1] && tail[j] == r[j + 1];
        }
      }
      StrictlySortedIsDistinct(tail);
      assert r[0] !in tail by {
        forall k | 0 <= k < |tail|
          ensures tail[k] != r[0]
        {
          assert tail[k] == r[k + 1];
          StrLessIrreflexive(Text(r[0]));
        }
      }
      assert r == [r[0]] + tail;
      assert multiset(r) == multiset{r[0]} + multiset(tail);
    }
  }

  /** A list whose element counts are at most one repeats no entry. */
  lemma NoRepeats(r: seq<Term>)
    requires forall x :: x in r ==> multiset(r)[x] <= 1
    ensures forall i, j :: 0 <= i < j < |r| ==> r[i] != r[j]
  {
    forall i, j | 0 <= i < j < |r|
      ensures r[i] != r[j]
    {
      assert r == r[..j] + r[j..];
      assert r[j] == r[j..][0];
      assert multiset(r)[r[j]] == multiset(r[..j])[r[j]] + multiset(r[j..])[r[j]];
      assert r[i] == r[..j][i];
    }
  }

  /** `less` is a strict order: irreflexive and transitive. */
  ghost predicate StrictOrder<T(!new)>(less: (T, T) -> bool)
  {
    && (forall x :: !less(x, x))
    && (forall x, y, z :: less(x, y) && less(y, z) ==> less(x, z))
  }

  /** Strictly ascending under `less`. */
  predicate Ascending<T>(r: seq<T>, less: (T, T) -> bool)
  {
    forall i, j :: 0 <= i < j < |r| ==> less(r[i], r[j])
  }

  /** Dropping the first entry keeps a list ascending. */
  lemma AscendingTail<T>(r: seq<T>, less: (T, T) -> bool)
    requires Ascending(r, less) && |r| > 0
    ensures Ascending(r[1..], less)
  {
    var rt := r[1..];
    forall i, j | 0 <= i < j < |rt|
      ensures less(rt[i], rt[j])
    {
      assert rt[i] == r[i + 1] && rt[j] == r[j + 1];
    }
  }

  /** Two ascending lists with the same elements start alike. */
  lemma SameFirstEntry<T(!new)>(r: seq<T>, l: seq<T>, less: (T, T) -> bool)
    requires StrictOrder(less) && Ascending(r, less) && Ascending(l, less) && |r| > 0 && |l| > 0
    requires forall x :: x in r <==> x in l
    ensures r[0] == l[0]
  {
    assert r[0] in l && l[0] in r;
    var k :| 0 <= k < |r| && r[k] == l[0];
    var m :| 0 <= m < |l| && l[m] == r[0];
    assert k == 0 || m == 0;
  }

  /** With their common first entry dropped, they still have the same elements. */
  lemma SameRemainingEntries<T(!new)>(r: seq<T>, l: seq<T>, less: (T, T) -> bool)
    requires StrictOrder(less) && Ascending(r, less) && Ascending(l, less) && |r| > 0 && |l| > 0 && r[0] == l[0]
    requires forall x :: x in r <==> x in l
    ensures forall x :: x in r[1..] <==> x in l[1..]
  {
    var rt, lt := r[1..], l[1..];
    forall x | x in rt
      ensures x in lt
    {
      var a :| 0 <= a < |rt| && rt[a] == x;
      assert r[a + 1] == x && less(r[0], x);
      assert x in l;
      var b :| 0 <= b < |l| && l[b] == x;
      assert b > 0 && lt[b - 1] == x;
    }
    forall x | x in lt
      ensures x in rt
    {
      var b :| 0 <= b < |lt| && lt[b] == x;
      assert l[b + 1] == x && less(l[0], x);
      assert x in r;
      var a :| 0 <= a < |r| && r[a] == x;
      assert a > 0 && rt[a - 1] == x;
    }
  }

  /** Lists with the same elements are empty together. */
  lemma SameElementsSameEmptiness<T>(r: seq<T>, l: seq<T>)
    requires forall x :: x in r <==> x in l
    ensures |r| == 0 <==> |l| == 0
  {
    if |r| > 0 {
      assert r[0] in l;
    }
    if |l| > 0 {
      assert l[0] in r;
    }
  }

  /** Two lists ascending under a strict order, with the same elements, are the same list. */
  lemma {:induction false} AscendingAreEqual<T(!new)>(r: seq<T>, l: seq<T>, less: (T, T) -> bool)
    requires StrictOrder(less) && Ascending(r, less) && Ascending(l, less)
    requires forall x :: x in r <==> x in l
    ensures r == l
    decreases |r|
  {
    if |r| > 0 && |l| > 0 {
      SameFirstEntry(r, l, less);
      SameRemainingEntries(r, l, less);
      AscendingTail(r, less);
      AscendingTail(l, less);
      AscendingAreEqual(r[1..], l[1..], less);
      assert r == [r[0]] + r[1..] && l == [l[0]] + l[1..];
    } else {
      SameElementsSameEmptiness(r, l);
    }
  }

  /** The text order on terms is a strict order. */
  lemma TermLessIsStrict()
    ensures StrictOrder(TermLess)
  {
    forall x
      ensures !TermLess(x, x)
    {
      TermLessIsStrictOrder(x, x, x);
    }
    forall x, y, z | TermLess(x, y) && TermLess(y, z)
      ensures TermLess(x, z)
    {
      TermLessIsStrictOrder(x, y, z);
    }
  }

  /** Two strictly ascending lists of terms with the same elements are the same list. */
  lemma StrictlySortedAreEqual(r: seq<Term>, l: seq<Term>)
    requires StrictlySorted(r) && StrictlySorted(l)
    requires forall x :: x in r <==> x in l
    ensures r == l
  {
    TermLessIsStrict();
    assert Ascending(r, TermLess) && Ascending(l, TermLess);
    AscendingAreEqual(r, l, TermLess);
  }

  /**
   * When the subterms of t, listed in ascending text order, print pairwise differently, `all_terms`
   * has exactly one possible result: any list meeting `AllTerms`' postconditions is that list.
   */
  lemma AllTermsIsDetermined(t: Term, l: seq<Term>, r: seq<Term>)
    requires StrictlySorted(l) && forall x :: IsSubterm(x, t) <==> x in l
    requires forall x :: x in r ==> IsSubterm(x, t)
    requires forall x :: IsSubterm(x, t) ==> Holds(Key, r, x)
    requires Distinct(Key, r) && SortedByText(r)
    ensures r == l
  {
    NoRepeats(r);
    StrictlySortedTextsDiffer(l);
    assert StrictlySorted(r) by {
      forall i, j | 0 <= i < j < |r|
        ensures TermLess(r[i], r[j])
      {
        assert r[i] in l && r[j] in l;
        TermLessIsStrictOrder(r[i], r[j], r[j]);
      }
    }
    forall x
      ensures x in r <==> x in l
    {
      if x in l {
        var y :| y in r && Key(y) == Key(x);
        assert y in l && Text(y) == Text(x);
      }
    }
    StrictlySortedAreEqual(r, l);
  }

  /** The term `C(1) * C(2) * C(3) * O` and what `all_terms` prints for it, line by line. */
  function AllTermsExample(): Term
  {
    Times(Times(Times(C1(1), C1(2)), C1(3)), Zero)
  }

  function AllTermsExampleOutput(): seq<Term>
  {
    [C1(1), Times(C1(1), C1(2)), Times(Times(C1(1), C1(2)), C1(3)), AllTermsExample(), C1(2), C1(3), Zero]
  }

  /** The subterms of a chain of four factors that are not tree nodes: the factors and the three left products. */
  lemma ChainSubterms(a: Term, b: Term, c: Term, d: Term)
    requires !a.Mediate? && !b.Mediate? && !c.Mediate? && !d.Mediate?
    ensures var ab := Times(a, b); var abc := Times(ab, c); var abcd := Times(abc, d);
      forall x :: IsSubterm(x, abcd) <==> x in [a, ab, abc, abcd, b, c, d]
  {
    var ab := Times(a, b);
    var abc := Times(ab, c);
    var abcd := Times(abc, d);
    TimesRecordsNode(a, b);
    TimesRecordsNode(ab, c);
    TimesRecordsNode(abc, d);
    forall x
      ensures IsSubterm(x, abcd) <==> x in [a, ab, abc, abcd, b, c, d]
    {
      assert IsSubterm(x, ab) <==> x == ab || x == a || x == b;
      assert IsSubterm(x, abc) <==> x == abc || IsSubterm(x, ab) || x == c;
      assert IsSubterm(x, abcd) <==> x == abcd || IsSubterm(x, abc) || x == d;
    }
  }

  /** The leaves `C(1)`, `C(2)` and `C(3)` print as such. */
  lemma ExampleLeafTexts(one: Term, two: Term, three: Term)
    requires one == C1(1) && two == C1(2) && three == C1(3)
    ensures Text(one) == "C(1)" && Text(two) == "C(2)" && Text(three) == "C(3)"
  {
    LeafTextsOf(one, two, Adder({Atom(1), Atom(2)}));
    SortedSingleton(Atom(3));
  }

  /** A product of two leaf-free operands prints as the first extended by ` * ` and the second. */
  lemma ProductExtendsText(a: Term, b: Term)
    requires !NeedsParenthesisOnPrint(a) && !NeedsParenthesisOnPrint(b)
    ensures Text(Times(a, b)) == Text(a) + (" * " + Text(b))
  {
    TimesPrints(a, b);
  }

  /** A left-grouped product chain of leaves prints each product as the previous one extended. */
  lemma ChainTexts(a: Term, b: Term, c: Term)
    requires a.Adder? && b.Adder? && c.Adder?
    ensures var ab := Times(a, b); var abc := Times(ab, c);
      && Text(ab) == Text(a) + (" * " + Text(b))
      && Text(abc) == Text(ab) + (" * " + Text(c))
      && Text(Times(abc, Zero)) == Text(abc) + (" * " + "O")
  {
    var ab := Times(a, b);
    var abc := Times(ab, c);
    ProductExtendsText(a, b);
    TimesPrints(a, b);
    ProductExtendsText(ab, c);
    TimesPrints(ab, c);
    ProductExtendsText(abc, Zero);
  }

  /** Leaves printing `C(1)`, `C(2)` and `C(3)`: the doctest's lines, built from them, ascend. */
  lemma ChainOutputAscends(a: Term, b: Term, c: Term)
    requires a.Adder? && b.Adder? && c.Adder?
    requires Text(a) == "C(1)" && Text(b) == "C(2)" && Text(c) == "C(3)"
    ensures var ab := Times(a, b); var abc := Times(ab, c);
      StrictlySorted([a, ab, abc, Times(abc, Zero), b, c, Zero])
  {
    var ab := Times(a, b);
    var abc := Times(ab, c);
    var abcz := Times(abc, Zero);
    ChainTexts(a, b, c);
    ChainTextsAscend(Text(a), Text(b), Text(c), Text(ab), Text(abc), Text(abcz));
    assert Text(Zero) == "O";
    ChainIsStrictlySorted([a, ab, abc, abcz, b, c, Zero]);
  }

  /** The doctest's lines as strings, each extending or sorting before the next. */
  lemma ChainTextsAscend(s1: string, s2: string, s3: string, s12: string, s123: string, s1230: string)
    requires s1 == "C(1)" && s2 == "C(2)" && s3 == "C(3)"
    requires s12 == s1 + (" * " + s2) && s123 == s12 + (" * " + s3) && s1230 == s123 + (" * " + "O")
    ensures StrLess(s1, s12) && StrLess(s12, s123) && StrLess(s123, s1230)
    ensures StrLess(s1230, s2) && StrLess(s2, s3) && StrLess(s3, "O")
  {
    ProperPrefixIsLess(s1, " * " + s2);
    ProperPrefixIsLess(s12, " * " + s3);
    ProperPrefixIsLess(s123, " * " + "O");
    assert s1230[..2] == "C(" && s1230[2] == '1' by {
      assert s1230 == s1 + ((" * " + s2) + (" * " + s3) + (" * " + "O"));
    }
    LessAfterCommonPrefix(s1230, s2, 2);
    LessAfterCommonPrefix(s2, s3, 2);
    LessAfterCommonPrefix(s3, "O", 0);
  }

  /** Each line of the doctest's output prints before the next. */
  lemma ExampleOutputAscends()
    ensures StrictlySorted(AllTermsExampleOutput())
  {
    ExampleLeafTexts(C1(1), C1(2), C1(3));
    ChainOutputAscends(C1(1), C1(2), C1(3));
  }

  /**
   * The `all_terms` doctest: for `C(1) * C(2) * C(3) * O` the only list meeting `AllTerms`'
   * postconditions prints `C(1)`, `C(1) * C(2)`, `C(1) * C(2) * C(3)`, `C(1) * C(2) * C(3) * O`,
   * `C(2)`, `C(3)`, `O`, in that order.
   */
  lemma AllTermsDoctest(r: seq<Term>)
    requires forall x :: x in r ==> IsSubterm(x, AllTermsExample())
    requires forall x :: IsSubterm(x, AllTermsExample()) ==> Holds(Key, r, x)
    requires Distinct(Key, r) && SortedByText(r)
    ensures r == AllTermsExampleOutput()
  {
    ChainSubterms(C1(1), C1(2), C1(3), Zero);
    ExampleOutputAscends();
    AllTermsIsDetermined(AllTermsExample(), AllTermsExampleOutput(), r);
  }

  /** That list does meet `AllTerms`' postconditions for the doctest's term. */
  lemma AllTermsDoctestOutputQualifies()
    ensures var t, l := AllTermsExample(), AllTermsExampleOutput();
      && (forall x :: x in l <==> IsSubterm(x, t))
      && Distinct(Key, l) && SortedByText(l)
  {
    var l := AllTermsExampleOutput();
    ChainSubterms(C1(1), C1(2), C1(3), Zero);
    ExampleOutputAscends();
    StrictlySortedIsDistinct(l);
    StrictlySortedTextsDiffer(l);
    forall i, j | 0 <= i < j < |l|
      ensures !TermLess(l[j], l[i])
    {
      TermLessIsStrictOrder(l[i], l[j], l[i]);
    }
  }
}
