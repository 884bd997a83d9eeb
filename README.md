# category_equations in Dafny

A model of python-category-equations. The library builds "category like" equations over a
connector operation. A term carries three sets:

- **sources**: the endpoints that can be connected from the left;
- **sinks**: the endpoints that can be connected to the right;
- **operations**: the connector calls the term will make when it is evaluated.

The operators work on these sets:

- `+` unites the sets and `-` discards one term's elements from the other's.
- `*` connects every source of the left operand to every sink of the right operand. An Identity
  endpoint `I` passes through the product.
- `I` is the identity of `*` and `O` the terminating zero.

Every term also remembers the tree it was built from (`ProcessedTerm`). That tree is what the
term prints as, and it is what the rewrites of `analysis.py` work on: `identity_off`, the swaps,
`head_out`/`tail_out`, and the queries head, tail, topmost sums, tail products and all terms.
`terms.py` is an older standalone version of the algebra (the `Container`). It compares terms by
printed text, and its `*` has its own rules for `I` and `O`.

Modules (one file each):

- `Wrappers`: Option and Result.
- `Endpoints`: `Atom(n) | IdEnd` and their order.
- `Strings`: `str` of integers, `join`, string `<`.
- `SetOperations`: `discard_b_from_a`.
- `Operation`: `FreezedOperation` and the mutable `OperationsSet`.
- `Category`: construction, `==` and `evaluate`.
- `Term`: the terms and their operators.
- `CategoryOperations` and `ProcessedTerms`: the tree node and printing.
- `TermLaws`: algebraic laws and the doctests of the package introduction (`__init__.py`), up to its equation-solving part.
- `Analysis`: `analysis.py`.
- `LegacyTerms`: `terms.py`.

Design choices:

- One connector is fixed, `Connector := 0`. The operator-mismatch `ValueError`s of the source
  therefore cannot arise between terms of the model.
- `a == b` on terms is equality of the three sets and the operator (`Category.__eq__`).
- A term's printed text and its tree play no part in `==`; they are modelled separately
  (`ProcessedTerms.Text`).
- A built term stores the sets computed when it was built, as `MediateTerm` does. `WellFormed`
  states that every stored set is what the operator computes from the children. The laws about
  rewrites are proved for well-formed terms.

## Model

| member | source | states |
|---|---|---|
| SetOperations.DiscardBFromA | category_equations/term.py:30-35 | the copy of `a` with every key of `b` discarded is exactly `a - b` |
| Endpoints.BelowIsStrictTotalOrder | category_equations/term.py:299-300 | the order used to sort leaf items is irreflexive, asymmetric, total and transitive |
| Endpoints.SortedEndpoints | category_equations/term.py:299-300 | the sorted list of a set is strictly ascending and holds exactly the set's members |
| Endpoints.SortedPair | category_equations/term.py:299-300 | two ordered items sort to that pair |
| Strings.StrLessIrreflexive | category_equations/category.py:49-50 | string `<` is irreflexive |
| Strings.StrLessTransitive | category_equations/category.py:49-50 | string `<` is transitive |
| Strings.StrLessTotal | category_equations/category.py:49-50 | of two different strings one is `<` the other |
| Operation.FrozenEqualsIsValueEquality | category_equations/operation.py:53-58 | two held connections are `==` exactly when operator, source and sink agree |
| Operation.OpBelowIsStrictTotalOrder | category_equations/operation.py:60-62 | the sort key orders held connections strictly and totally |
| Operation.SortedListUnique | category_equations/operation.py:93-98 | a set has only one strictly sorted listing |
| Operation.SortedListFromMembers | category_equations/operation.py:93-98 | a strictly sorted list with the set's members is its sorted listing |
| Operation.SortOperations | category_equations/operation.py:93-98 | the result is the strictly sorted list of exactly the set's connections |
| Operation.AsValues | category_equations/operation.py:72-77 | the values handed over are exactly the held connections |
| Operation.FrozenOf | category_equations/operation.py:72-77 | the held connections among a collection of values are exactly the frozen ones |
| Operation.OperationsSet.FromElements | category_equations/operation.py:65-70 | a set of connections of one operator is stored with that operator |
| Operation.OperationsSet.New | category_equations/operation.py:65-77 | ValueError exactly when the operator is not callable or a value is not a held connection of it, else a fresh set of those connections |
| Operation.OperationsSet.CheckOperations | category_equations/operation.py:72-77 | accepts exactly when every value is a held connection of this operator |
| Operation.OperationsSet.Union | category_equations/operation.py:79-81 | ValueError exactly when the other set holds a connection of another operator, else a fresh set holding the union |
| Operation.OperationsSet.DiscardAll | category_equations/operation.py:83-88 | ValueError exactly when the other set holds a connection of another operator, else a fresh set holding the difference |
| Operation.OperationsSet.AddFreezedOperation | category_equations/operation.py:90-91 | the set gains exactly the connection source -> sink of its own operator |
| Operation.OperationsSet.AsSortedList | category_equations/operation.py:93-98 | the set's connections in sort-key order |
| Category.NewCategory | category_equations/category.py:13-28 | ValueError exactly when an argument is missing or `operations` is not an OperationsSet, else the four fields as given |
| Category.EqualsIsValueEquality | category_equations/category.py:52-61 | `==` is False against None and non-Categories, and otherwise holds exactly for equal operator and sets |
| Category.EqualsIsEquivalence | category_equations/category.py:52-61 | `==` is reflexive, symmetric and transitive |
| Category.Evaluate | category_equations/category.py:71-73 | the connector is called once per stored connection, in sorted order |
| Term.Cross | category_equations/term.py:82-92 | the new connections are exactly the source/sink pairs with no Identity endpoint |
| Term.Substitute | category_equations/term.py:94-110 | an Identity endpoint is replaced by the other operand's endpoints and nothing else changes |
| Term.TimesRecordsNode | category_equations/term.py:65-121 | every product records the node `a * b` |
| Term.Mul | category_equations/term.py:65-121 | the loops of `__mul__` compute the product specified by `Times` |
| Term.NewOperations | category_equations/term.py:82-92 | the nested loop builds exactly `Cross` |
| Term.ConnectSource | category_equations/term.py:87-92 | one source gains a connection to each non-Identity sink and the set stays compatible |
| Term.SubstituteIdentity | category_equations/term.py:94-110 | the substitution loop builds exactly `Substitute` |
| Term.AdderCategory | category_equations/term.py:258-277 | each item becomes a source and a sink, and an Identity item brings its own sets |
| Term.Combine | category_equations/term.py:288-294 | ValueError exactly for a non-Adder argument, else a leaf set `==` to the sum |
| Term.AdditionChainStep | category_equations/term.py:301-303 | each step of the accumulator loop adds the next singleton |
| Term.ReduceToAdditions | category_equations/term.py:296-304 | an empty leaf set for no items, else the `+` chain of singletons in sorted order |
| CategoryOperations.Symbol | category_equations/processed_term.py:25-27 | each operation prints as one of `+`, `-`, `*` |
| CategoryOperations.SymbolsAreDistinct | category_equations/processed_term.py:25-27 | different operations print differently |
| ProcessedTerms.NewProcessedTerm | category_equations/processed_term.py:78-87 | ValueError exactly when a part is missing; the left operand is the sink and the right one the source |
| ProcessedTerms.ProcessedTextShape | category_equations/processed_term.py:89-96 | a node prints as `left op right`, each operand parenthesised exactly when it needs it |
| ProcessedTerms.ProcessedEqualsMeaning | category_equations/processed_term.py:113-115 | two nodes are equal exactly when their operations agree and their operands are `==` |
| ProcessedTerms.ProcessedEqualsDoctests | category_equations/processed_term.py:39-53 | the equality doctests on `a`, `b`, `c`, `d` and `e` |
| ProcessedTerms.LeafTexts | category_equations/term.py:285-286 | `C(1)`, `C(2)` and `C(1, 2)` print as such |
| ProcessedTerms.TimesPrints | category_equations/processed_term.py:89-96 | a product prints as its operands around ` * ` and never needs parentheses |
| ProcessedTerms.StarJoinAssociates | category_equations/processed_term.py:89-96 | joining with ` * ` associates |
| ProcessedTerms.ArrowChainsPrintFlat | category_equations/processed_term.py:57-72 | `(a * b) * c` and `a * (b * c)` both print flat, as the same text |
| ProcessedTerms.SumOperandIsParenthesised | category_equations/processed_term.py:60-61 | `C(1, 2) * (C(1) + C(2))` keeps its parentheses |
| ProcessedTerms.EqualTermsMayPrintDifferently | category_equations/category.py:46-61 | `C(1, 2) == C(1) + C(2)`, yet they hash apart and are ordered by their texts |
| ProcessedTerms.TermLessIsStrictOrder | category_equations/category.py:49-50 | term `<` is a strict order, total up to equal texts |
| TermLaws.WellFormedIsSound | category_equations/term.py:82-92 | every connection a term holds has the one connector and no Identity endpoint |
| TermLaws.PlusUnites | category_equations/term.py:47-54 | `+` unites sinks, sources and operations |
| TermLaws.PlusCommutes | category_equations/term.py:47-54 | `a + b == b + a` |
| TermLaws.PlusAssociates | category_equations/term.py:47-54 | `(a + b) + c == a + (b + c)` |
| TermLaws.PlusIdempotent | category_equations/term.py:47-54 | `a + a == a`, so `I == I + I` and `O == O + O` |
| TermLaws.MinusDiscards | category_equations/term.py:56-63 | `-` discards each of b's sets from a's, and `a - a == O` |
| TermLaws.LeftIdentityAndZero | category_equations/term.py:167-173 | `I * b` carries b's sets; `O * b` keeps b's sources and operations with no sinks |
| TermLaws.RightIdentityAndZero | category_equations/term.py:66-80 | `a * I` keeps a's sets; `a * O` keeps a's sinks and operations with no sources |
| TermLaws.GeneralComposition | category_equations/term.py:82-121 | the product's connections, sources and sinks, member by member |
| TermLaws.ComposeWithIdentity | category_equations/term.py:160-173 | the Identity's sets are a two-sided unit of composition |
| TermLaws.TimesIsCompose | category_equations/term.py:65-121 | for zero-free operands, every case of `*` is one composition of the sets |
| TermLaws.ComposeDistributes | category_equations/__init__.py:181-182 | composition distributes over `+` on both sides |
| TermLaws.ComposeAssociative | category_equations/term.py:82-121 | composition is associative when the middle term has `I` on both sides or on neither |
| TermLaws.ZeroFreeIsIdSymmetric | category_equations/term.py:94-110 | a zero-free term has `I` among its sources exactly when it has `I` among its sinks |
| TermLaws.EqualityIsNotCongruence | category_equations/term.py:188-225 | `C(1) - C(1) == O`, yet multiplying both by `I` gives terms that are not `==` |
| TermLaws.AdditionChainMeaning | category_equations/term.py:296-304 | the `+` chain of singletons is well formed and carries the leaf set of its items |
| TermLaws.ReduceToAdditionsRoundTrip | category_equations/term.py:296-304 | reducing a leaf set to additions gives a term `==` to it |
| TermLaws.IdentityDoctests | category_equations/term.py:125-158 | the Identity doctests, each answer as listed |
| TermLaws.ZeroDoctests | category_equations/term.py:189-225 | the Zero doctests, each answer as listed |
| TermLaws.FourConnections | category_equations/__init__.py:96-100 | `C(1,2) * C(3,4)` holds exactly 1->3, 1->4, 2->3, 2->4 |
| TermLaws.FourConnectionsOrder | category_equations/__init__.py:96-100 | and evaluates them in that order |
| TermLaws.CompositionDoesNotCommute | category_equations/__init__.py:102-143 | `C(3,4) * C(1,2)` has sinks {3,4} and sources {1,2}, and differs from `C(1,2) * C(3,4)` |
| TermLaws.LeafSetsIgnoreOrder | category_equations/__init__.py:90-91 | `C(1,2) == C(1) + C(2)`, `C(1,2)*C(3,4) == C(2,1)*C(4,3) == (C(1)+C(2))*(C(3)+C(4))` |
| TermLaws.IdentityItemKeepsSources | category_equations/__init__.py:110-120 | `C(1) * C(2, I)` has sinks {1}, sources {1,2}, one connection, and `== C(1) + C(1) * C(2)` |
| TermLaws.LeafProduct | category_equations/term.py:82-121 | two leaf sets without `I` compose to the right one's sources, the left one's sinks and every left-to-right connection |
| TermLaws.ReversedFourConnections | category_equations/__init__.py:139-143 | `C(3,4) * C(1,2)` holds exactly 3->1, 3->2, 4->1, 4->2 |
| TermLaws.DiscardDoctests | category_equations/__init__.py:145-167 | `C(3,4) * C(1,2) - C(4) * C(1)` holds 3->1, 3->2, 4->2 with sinks {3}; `C(3) * C(1,2) + C(4) * C(2)` has sinks {3,4} and is not `==` to it; taking away `C(4) * O` and `O * C(1)` makes them `==` |
| TermLaws.ZeroAroundIdentity | category_equations/__init__.py:174-175 | `O * I * O == O` |
| TermLaws.IdentityFactorsOut | category_equations/__init__.py:181-206 | for leaf sets, `x * y * z + x * z` and `x * (y + I) * z` both carry z's sources, x's sinks and the connections x to y, y to z, x to z |
| TermLaws.SumOfChains | category_equations/__init__.py:186-194 | the sets of `x * y * z + x * z` |
| TermLaws.IdentityInMiddle | category_equations/__init__.py:198-206 | the sets of `x * (y + I) * z` |
| TermLaws.IdentitySimplifies | category_equations/__init__.py:181-206 | `C(1,2) * C(3,4) * C(5) + C(1,2) * C(5) == C(1,2) * (C(3,4) + I) * C(5)`, both with the eight listed connections |
| TermLaws.ZeroFactorsOut | category_equations/__init__.py:208-234 | for leaf sets, `w * x * z + O * y * z` and `w * (x + O * y) * z` carry the same sets, while without the `O` y stays a sink |
| TermLaws.ChainAndTerminatedChain | category_equations/__init__.py:217-220 | the sets of `w * x * z + O * y * z`, and of the same sum without the `O` |
| TermLaws.ZeroInMiddle | category_equations/__init__.py:222-225 | the sets of `w * (x + O * y) * z` |
| TermLaws.ZeroTerminatesLooseEnds | category_equations/__init__.py:212-228 | `C(1) * C(2) * C(4) + O * C(3) * C(4) == C(1) * (C(2) + O * C(3)) * C(4)`, both making 1->2, 2->4, 3->4 |
| TermLaws.LooseEndBreaksEquality | category_equations/__init__.py:231-234 | without the `O` the connections are the same, yet the two sides are not `==` |
| Analysis.ExactlyOneKind | category_equations/analysis.py:16-36 | every term is exactly one of terminal, arrow, add and discard |
| Analysis.Head | category_equations/analysis.py:140-154 | a head exists exactly for terminals and arrows |
| Analysis.Tail | category_equations/analysis.py:157-171 | a tail exists exactly for terminals and arrows |
| Analysis.HeadTimesTail | category_equations/analysis.py:140-171 | an arrow is its head times its tail, and a terminal is its own head and tail |
| Analysis.TimesKeepsForm | category_equations/term.py:65-121 | a product of well-formed terms is a well-formed arrow, zero-free when its operands are |
| Analysis.PlusKeepsForm | category_equations/term.py:47-54 | a sum of well-formed terms is a well-formed add, zero-free when its operands are |
| Analysis.IdentityOff | category_equations/analysis.py:230-236 | anything but an arrow is returned as it is |
| Analysis.IdentityOffKeepsMeaning | category_equations/analysis.py:212-236 | on zero-free terms the result is `==` to the input and has no `I` factor left |
| Analysis.IdentityOffChangesZeroTimesIdentity | category_equations/analysis.py:230-236 | `O * I` becomes `O`, which is not `==` to `O * I` |
| Analysis.IdentityOffDoctests | category_equations/analysis.py:215-227 | the five identity_off doctests |
| Analysis.SwapHead | category_equations/analysis.py:311-316 | defined exactly for a sum whose left operand is a sum, or a product whose left operand is a product |
| Analysis.SwapTail | category_equations/analysis.py:289-294 | defined exactly for a sum whose right operand is a sum, or a product whose right operand is a product |
| Analysis.SwapsAreInverse | category_equations/analysis.py:274-316 | swap_tail undoes swap_head and swap_head undoes swap_tail |
| Analysis.SwapsKeepMeaning | category_equations/analysis.py:274-316 | on zero-free terms a swap gives a term `==` to its input |
| Analysis.SwapTailDoctests | category_equations/analysis.py:278-287 | the source of `C(1) + (C(2) + C(3))` is `C(2) + C(3)`; swapping gives `(C(1) + C(2)) + C(3)`; swapping `C(1) * (C(2) * C(3))` gives sink `C(1) * C(2)` |
| Analysis.SwapHeadDoctests | category_equations/analysis.py:300-309 | the source of `(C(1) + C(2)) + C(3)` is `C(3)`; swapping gives `C(1) + (C(2) + C(3))`; swapping `(C(1) * C(2)) * C(3)` gives source `C(2) * C(3)` |
| Analysis.ProductSwapKeepsMeaning | category_equations/analysis.py:294 | `(a * b) * c == a * (b * c)` for zero-free operands |
| Analysis.HeadOut | category_equations/analysis.py:196-209 | the result is always a product |
| Analysis.TailOut | category_equations/analysis.py:260-272 | the result is always a product |
| Analysis.FactoringFailsOnlyOnSumsOfSums | category_equations/analysis.py:202-209 | head_out and tail_out fail exactly on a sum of two operands that have neither head nor tail |
| Analysis.HeadOutDoctests | category_equations/analysis.py:179-192 | the five head_out doctests |
| Analysis.TailOutDoctests | category_equations/analysis.py:243-256 | the five tail_out doctests |
| Analysis.HeadOutRemainder | category_equations/analysis.py:196-200 | head times the right operand of head_out composes back to the term |
| Analysis.HeadOutKeepsMeaning | category_equations/analysis.py:196-209 | on zero-free terms head_out gives a term `==` to its input |
| Analysis.TailOutRemainder | category_equations/analysis.py:260-264 | the left operand of tail_out times the tail composes back to the term |
| Analysis.TailOutKeepsMeaning | category_equations/analysis.py:260-272 | on zero-free terms tail_out gives a term `==` to its input |
| Analysis.TopmostSums | category_equations/analysis.py:114-120 | every yielded term is a terminal or an arrow |
| Analysis.UnionAllAppend | category_equations/analysis.py:118-120 | the union of a concatenation is the union of the unions |
| Analysis.TopmostSumsAddUp | category_equations/analysis.py:103-120 | without discards, the yielded terms add up to the term |
| Analysis.TopmostSumsDoctest | category_equations/analysis.py:105-110 | `C(1) + C(2)*C(3) + C(1)*C(3)*C(4)` yields its three addends |
| Analysis.TimesAll | category_equations/analysis.py:98-99 | each tail multiplied by the same right operand |
| Analysis.TailProducts | category_equations/analysis.py:89-100 | nothing is yielded exactly when the rightmost factor is a discard, and the last yield is that factor |
| Analysis.FactorCount | category_equations/analysis.py:94-100 | a term has at least one factor |
| Analysis.TailProductsOfFactors | category_equations/analysis.py:89-100 | one tail per factor, the first being the term itself |
| Analysis.RightmostFactorIsNoDiscard | category_equations/analysis.py:94-97 | without discard factors the rightmost factor is no discard |
| Analysis.TailProductsOfChain | category_equations/analysis.py:89-100 | `a * b * c` yields itself, `b * c` and `c` |
| Analysis.TailProductsOfLongerChain | category_equations/analysis.py:89-100 | `a * b * c * d` yields itself, `b * c * d`, `c * d` and `d` |
| Analysis.TailProductsDoctest | category_equations/analysis.py:75-80 | the tail products of `C(1) * C(2) * C(3) * (O + C(4))` |
| Analysis.YieldsItself | category_equations/analysis.py:89-92 | a terminal or a sum is its own only tail product |
| Analysis.TailProductsSumDoctest | category_equations/analysis.py:82-86 | the tail products of `C(1) * (C(2) + C(3)) * (O + C(4))` |
| Analysis.KeyMeaning | category_equations/analysis.py:58 | two terms are the same member of the collected set exactly when their texts and their sets agree |
| Analysis.HeldStaysHeld | category_equations/analysis.py:58-60 | what has been collected stays collected |
| Analysis.NewEntriesAreSubterms | category_equations/analysis.py:60-64 | entries collected under a node are the node or subterms of its operands |
| Analysis.CollectAsWritten | category_equations/analysis.py:55-66 | the collection as written: it only adds, holds the term, and adds subterms only |
| Analysis.SubtermsOfChain | category_equations/analysis.py:61-64 | the subterms of `(p * q) * r` are the five listed ones |
| Analysis.CollectAsWrittenSkipsOperands | category_equations/analysis.py:58-59 | when `(p * q) * r` and `p * (q * r)` are the same set member, the sum of both never collects `q * r` |
| Analysis.CollectAsWrittenMissesSubterm | category_equations/analysis.py:58-59 | `(C(1)*C(2))*C(3) + C(1)*(C(2)*C(3))` never collects `C(2) * C(3)` |
| Analysis.CollectEvery | category_equations/analysis.py:55-66 | every subterm ends up collected, only subterms are added, and no set member twice |
| Analysis.TermCollector.constructor | category_equations/analysis.py:55 | the collection starts empty |
| Analysis.TermCollector.Collect | category_equations/analysis.py:57-66 | the shared collection grows exactly as `CollectEvery` says |
| Analysis.SortByText | category_equations/analysis.py:67-68 | a permutation of the list, sorted by printed text |
| Analysis.InsertByText | category_equations/analysis.py:67-68 | one more element inserted keeping the order |
| Analysis.AllTerms | category_equations/analysis.py:40-69 | every subterm once, only subterms, sorted by printed text (corrected collection, see ## Findings) |
| Analysis.PermutationKeepsCollection | category_equations/analysis.py:67-68 | reordering the collected set keeps its members |
| Analysis.ChainIsStrictlySorted | category_equations/analysis.py:67-68 | a list whose every entry prints before the next is strictly ascending |
| Analysis.StrictlySortedTextsDiffer | category_equations/analysis.py:67-68 | different entries of a strictly ascending list print differently |
| Analysis.StrictlySortedIsDistinct | category_equations/analysis.py:42-58 | a strictly ascending list holds no term and no set member twice |
| Analysis.NoRepeats | category_equations/analysis.py:58-60 | a list counting each element at most once repeats no entry |
| Analysis.AscendingAreEqual | category_equations/analysis.py:67-68 | two lists ascending under one strict order, with the same elements, are the same list |
| Analysis.TermLessIsStrict | category_equations/category.py:49-50 | term `<` is irreflexive and transitive |
| Analysis.AllTermsIsDetermined | category_equations/analysis.py:40-69 | when t's subterms print pairwise differently, exactly one list meets `AllTerms`' postconditions: them in text order |
| Analysis.ChainSubterms | category_equations/analysis.py:57-64 | the subterms of `a * b * c * d` are the four factors and the three left products |
| Analysis.ChainTextsAscend | category_equations/analysis.py:46-52 | `C(1)` < `C(1) * C(2)` < `C(1) * C(2) * C(3)` < `C(1) * C(2) * C(3) * O` < `C(2)` < `C(3)` < `O` as strings |
| Analysis.ChainOutputAscends | category_equations/analysis.py:46-52 | the seven terms of the doctest output ascend in text order |
| Analysis.AllTermsDoctest | category_equations/analysis.py:42-53 | for `C(1) * C(2) * C(3) * O` every result meeting `AllTerms`' postconditions is the seven lines in the listed order |
| Analysis.AllTermsDoctestOutputQualifies | category_equations/analysis.py:42-53 | and that list does meet them |
| LegacyTerms.FreezedEqualityIgnoresFunction | category_equations/terms.py:20-25 | held calls of one connector are `==` exactly when equal; calls of two connectors may be `==` yet hash apart |
| LegacyTerms.IsZeroMeansEmpty | category_equations/terms.py:71-74 | a term is zero exactly when its three sets are empty |
| LegacyTerms.ItemsEndsMembers | category_equations/terms.py:158-165 | the endpoints items contribute, item by item |
| LegacyTerms.ItemsOperationsMembers | category_equations/terms.py:158-165 | the connections items contribute, item by item |
| LegacyTerms.NewContainerMembers | category_equations/terms.py:142-166 | plain items become sources and sinks, term items bring their sets, and the items print first |
| LegacyTerms.InitContainer | category_equations/terms.py:142-166 | the loop of `Container.__init__` builds `NewContainer` |
| LegacyTerms.NoItemsContainer | category_equations/terms.py:142-166 | without items a Container holds what it was given |
| LegacyTerms.PrintOperatorPieces | category_equations/terms.py:168-169 | a node prints as `left,'op',right` |
| LegacyTerms.LLessIsStrictOrder | category_equations/terms.py:62-69 | term `<` is a strict order, total up to `==` |
| LegacyTerms.Sub | category_equations/terms.py:86-94 | the three copies with b's elements discarded build `Minus` |
| LegacyTerms.PlusUnites | category_equations/terms.py:76-84 | `+` unites the three sets and prints `C(a,'+',b)` |
| LegacyTerms.MinusDiscards | category_equations/terms.py:86-94 | `-` discards b's elements from a's sets and prints `C(a,'-',b)` |
| LegacyTerms.MinusSelfIsZeroButNotO | category_equations/terms.py:62-74 | `a - a` is zero but not `== O` |
| LegacyTerms.Cross | category_equations/terms.py:184-194 | the new calls are exactly the source/sink pairs with no `I` endpoint |
| LegacyTerms.Mul | category_equations/terms.py:96-99 | `Identity.__mul__`, `Zero.__mul__` and `Container.__mul__` compute `Times` |
| LegacyTerms.NewCalls | category_equations/terms.py:184-194 | the nested loop builds exactly `Cross` |
| LegacyTerms.GeneralTimes | category_equations/terms.py:184-224 | the general product's sources, sinks and connections, member by member |
| LegacyTerms.TimesPrints | category_equations/terms.py:217-223 | the general product prints `C(a,'*',b)` |
| LegacyTerms.IdentityIsUnit | category_equations/terms.py:96-99 | `I * x` is x itself, `c * I` is c, `O * I` is `O` and `I * I` is `I` |
| LegacyTerms.ZeroCutsOneSide | category_equations/terms.py:125-131 | `c * O` has no sources yet is `== c`; `O * c` has no sinks |
| LegacyTerms.ZeroTerminates | category_equations/terms.py:179-182 | nothing after `c * O` gets connected |
| LegacyTerms.LegacyEqualityIsTextual | category_equations/terms.py:62-69 | `C(1,2)` and `C(2,1)` have equal sets but differ, and `C(1) * O == C(1)` with different sets |
| LegacyTerms.GeneralTimesSets | category_equations/terms.py:196-214 | the three set-building loops of the general product, as sets |
| LegacyTerms.NumberContainer | category_equations/terms.py:347-348 | `C(x)` holds x as its only source and sink |
| LegacyTerms.NumberPair | category_equations/terms.py:347-348 | `C(x, y)` holds x and y as sources and sinks |
| LegacyTerms.CrossOfPairs | category_equations/terms.py:184-194 | two sources and two sinks give four calls |
| LegacyTerms.TwoByTwoConnections | category_equations/terms.py:254-258 | `C(1,2) * C(3,4)` makes 1->3, 1->4, 2->3, 2->4 |
| LegacyTerms.UnitAndZeroDoctests | category_equations/terms.py:261-274 | `I * C(1)`, `C(1) * I`, `C(1) * O` print `C(1)`; `(C(1) * O) * C(2)` makes no call |
| LegacyTerms.SinglePrints | category_equations/terms.py:168-169 | `C(x)` prints `C(x)` |
| LegacyTerms.PairPrints | category_equations/terms.py:168-169 | `C(x,y)` prints `C(x,y)` |
| LegacyTerms.SumAndDifferencePrint | category_equations/terms.py:306-310 | `C(1,2) + C(1,4)` and `C(1,2) - C(1,4)` print as listed |
| LegacyTerms.ProductPrints | category_equations/terms.py:300-301 | `C(1) * C(2)` prints `C(C(1),'*',C(2))` |
| LegacyTerms.TermPair | category_equations/terms.py:158-162 | `C(s, t)` merges the sets of its two term items |
| LegacyTerms.CrossSkipsIdentity | category_equations/terms.py:186-192 | an `I` endpoint on either side makes no call |
| LegacyTerms.CrossOfFourAndOne | category_equations/terms.py:184-194 | four sources and one sink give four calls |
| LegacyTerms.PassThroughSets | category_equations/terms.py:196-214 | an `I` source of the right operand lets the left's sources through |
| LegacyTerms.PassThroughProduct | category_equations/terms.py:279 | `C(1,2) * C(C(3,4), I)` has sources 1..4 and four calls |
| LegacyTerms.IdentityItemPassesThrough | category_equations/terms.py:279-287 | `C(1,2) * C(C(3,4), I) * C(5)` makes the eight listed calls |
| LegacyTerms.SingleTerm | category_equations/terms.py:158-162 | `C(t)` carries t's connections |
| LegacyTerms.TermTriple | category_equations/terms.py:158-162 | `C(s, t, u)` merges the sets of its three term items |
| LegacyTerms.ZeroSidedItems | category_equations/terms.py:125-131 | `C(O * C(2), C(3), C(4) * O)` has sources {2,3} and sinks {3,4} |
| LegacyTerms.ZeroSidedFirstProduct | category_equations/terms.py:184-224 | `C(1) * C(O * C(2), C(3), C(4) * O)` connects 1 to 3 and 4 |
| LegacyTerms.ZeroSidedSecondProduct | category_equations/terms.py:184-224 | then `* C(5)` connects 2 and 3 to 5 |
| LegacyTerms.ZeroSidedChain | category_equations/terms.py:184-224 | the two products together |
| LegacyTerms.ZeroSidedConnections | category_equations/terms.py:320-324 | `C(C(1) * C(O * C(2), C(3), C(4) * O) * C(5))` makes 1->3, 1->4, 2->5, 3->5 |
| LegacyTerms.KnownProduct | category_equations/terms.py:196-224 | a product with a sinked, non-`I` right operand: its sources, its sinks and its calls, the left's sources connected to the right's sinks |
| LegacyTerms.SumOfChainsConnections | category_equations/terms.py:289-297 | `C(1,2) * C(3,4) * C(5) + C(1,2) * C(5)` makes the eight listed calls |
| LegacyTerms.IdentityOperandConnections | category_equations/terms.py:316-318 | `C(1,2) * C(C(I), I) * C(5)` makes 1->5 and 2->5 only |
| LegacyTerms.IdentityOperandPassesThrough | category_equations/terms.py:196-214 | an operand whose only endpoint is `I` keeps the left operand's endpoints and adds no call |
| LegacyTerms.ZeroSidedDiscardConnections | category_equations/terms.py:326-329 | taking `C(1) * C(3)` away leaves 1->4, 2->5, 3->5 |
| LegacyTerms.NumberTriple | category_equations/terms.py:347-348 | `C(x, y, z)` holds x, y and z as sources and sinks |
| LegacyTerms.TriplePrints | category_equations/terms.py:168-169 | `C(x,y,z)` prints `C(x,y,z)` |
| LegacyTerms.DifferenceInChainConnections | category_equations/terms.py:332-338 | `C(0)*(C(1,2,3)*C(4,5) - C(1,2)*C(4))*C(6)` makes 0->3, 1->5, 2->5, 3->4, 3->5, 5->6 |
| LegacyTerms.DifferenceSets | category_equations/terms.py:86-94 | `C(1,2,3)*C(4,5) - C(1,2)*C(4)` has sources {5}, sinks {3} and the four calls kept |
| LegacyTerms.DifferenceInChainPrints | category_equations/terms.py:303-304 | `C(0)*(C(1,2,3)*C(4,5) - C(1,2)*C(4))*C(6)` prints as listed (the same doctest again at terms.py:312-313) |
| LegacyTerms.ChainOfDifferencePrints | category_equations/terms.py:217-223 | how `g * (p * q - r * s) * f` prints, node by node |

## Left out

- The connector's side effect is not modelled. `debug` prints, and `evaluate` calls the callback. The model states which calls are made and in which order.
- `simplify`, `get_route` and `EquationMap` are imported by the package, but their definitions are not part of this model. Their doctests (category_equations/__init__.py:236-273) are therefore not modelled.
- `from_operator` and `get_I_and_O` are not modelled; they only construct terms. `I`, `O` and `C(...)` are written directly as values.
- `Get.topmost_tail_products` (category_equations/analysis.py:123-137) is not modelled. It only chains `topmost_sums` with `tail_products`, and both of those are modelled.
- The connector is one fixed id. The abc metaclasses, the `Callable` check and the operator-mismatch `ValueError`s between terms are not modelled, because every term of the model shares that connector.
- `copy.copy` object identity, aliasing of the copied sets, and hash values are not modelled. Terms are values, and a hash is modelled by what it is computed from.
- Endpoints are integers or `I`. Other hashable items, such as the strings in the ProcessedTerm doctests, are represented by integers.
- ProcessedTerms.Text: a leaf set prints its items in ascending order, while the source joins them in set iteration order, which Python leaves unspecified.
- Term.ReduceToAdditions: always returns the `+` chain with an `I` item last. In the source, `items.sort()` (term.py:300) compares `I` with the integers. Category defines only `__lt__` (category.py:49-50), so `int < I` raises `TypeError`. Whether it is reached depends on the hash-randomized order of the set, so `C(1, I).reduce_to_additions()` may raise.
- Analysis.HeadOut: requires `HeadOutDefined`. The source raises on a sum of two sums, because it evaluates `None * ...` (analysis.py:203-207). `FactoringFailsOnlyOnSumsOfSums` states exactly which inputs are excluded.
- Analysis.TailOut: requires `TailOutDefined`, for the same reason (analysis.py:267-272).
- Analysis.IdentityOffKeepsMeaning: proved for zero-free terms only. `IdentityOffChangesZeroTimesIdentity` shows that `O * I` loses its meaning.
- Analysis.SwapsKeepMeaning: proved for zero-free terms only. With `O` inside, `*` is not associative.
- Analysis.HeadOutKeepsMeaning: proved for zero-free terms only.
- Analysis.TailOutKeepsMeaning: proved for zero-free terms only.
- ProcessedTerms.ProcessedEquals: takes two tree nodes. The `False` that `ProcessedTerm.__eq__` returns for any other kind of object (processed_term.py:114) is not modelled, because the argument is typed.
- The `ValueError` of `MediateTerm.__init__` for a missing tree node (term.py:320-321) is not modelled: the `Mediate` constructor always carries one.
- Analysis.AllTerms: the order between terms with the same printed text is the insertion sort's order. The source leaves that order to Python's sort over an unordered set.
- LegacyTerms: `Freezed_fnc.sort_key` and `evaluate` of terms.py are not modelled. The model states the set of calls a term makes, not the order of those calls.

## Findings

| source | as written | input that shows it | evidently intended | confidence | as-written member | corrected member |
|---|---|---|---|---|---|---|
| category_equations/analysis.py:58-59 | `collect_terms` returns at once for a term already held, so that term's operands are never visited. A term is held when an `==` term with the same printed text is held. | `(C(1)*C(2))*C(3) + C(1)*(C(2)*C(3))`: both addends print `C(1) * C(2) * C(3)` and are `==`, so `C(2) * C(3)` is never collected (`Analysis.CollectAsWrittenMissesSubterm`) | `all_terms` returns every subterm reachable through operands, each once | medium, not executed | Analysis.CollectAsWritten | Analysis.CollectEvery |
