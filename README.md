# Discount calculator allocator, modelled in Dafny

This project models the greedy payment allocator of the discount calculator,
`computePayments` in `DiscountCalc`. It pays each customer order with the
loyalty-points account (`PUNKTY`), a promoted card, or a split of points and one
card. Per order it picks the candidate with the largest discount that fits the
remaining limits, then debits that method's limit and credits its spent amount.

Files and modules:

- `wrappers.dfy` (`Wrappers`): the `Option` type used wherever the source keeps a `null`.
- `model.dfy` (`DiscountModel`): the `Order` and `PaymentMethod` records and the three constants.
  It also holds the registry-building functions (`InitialLimits`, `MethodMapOf`, `ZeroSpent`), one function per candidate kind (`FullPoints`, `FullCard`, `Partial`), and the list of feasible candidates in evaluation order (`Candidates`).
  The strict-`>` selection starting from `bestDiscount = -1` is `Pick`.
  How one order changes the two ledgers is `Settle`; a whole run is `Final` and `Unpaid`.
- `registry.dfy` (`DiscountCalc`): the imperative allocator.
  `Registry` has the fields `methods`, `methodMap`, `limits` and `spent`; its constructor builds them with loops.
  `SelectBest` evaluates the three candidate kinds, with `PromotionPass` and `SplitPass` as its two loops, and `Commit` merges the winner into both maps.
  `Pay` handles one order; `ComputePayments` is the outer loop over the orders.
  Each method is proved against the functions of `DiscountModel`.
- `properties.dfy` (`DiscountProperties`): lemmas about those functions.
  They cover first-maximum selection, the shape and feasibility of every candidate, per-id conservation, and the bounds on limits and spent amounts.
- `examples.dfy` (`DiscountCalcExamples`): the repository's three unit-test cases, plus a split-only order, a tie, and limit exhaustion across two orders.

Money is Dafny `real`, so `+`, `-`, `*` and `/ 100` are exact.
`limits.getOrDefault(id, 0.0)` is `Get`, and `HashMap.merge` with `Double::sum` is `AddAll`.
Duplicate method ids follow the source: the last entry wins in `limits` and `methodMap`, and every entry is still visited by the split loop.
At line 161 the source prints a diagnostic for each unpaid order; here the ids of those orders are returned instead.

## Model

| member | source | states |
|---|---|---|
| `DiscountModel.InitialLimits` | discount-calcs/src/main/java/org/example/DiscountCalc.java:96-102 | the limits map has exactly the ids of the method list as keys |
| `DiscountModel.MethodMapOf` | discount-calcs/src/main/java/org/example/DiscountCalc.java:97-102 | the method map has exactly the listed ids as keys, and each entry is the method with that id |
| `DiscountModel.ZeroSpent` | discount-calcs/src/main/java/org/example/DiscountCalc.java:105-106 | spent starts with one entry per listed id, each 0 |
| `DiscountProperties.LastWins` | discount-calcs/src/main/java/org/example/DiscountCalc.java:99-102 | with duplicate ids, the last entry of the list decides both the initial limit and the method |
| `DiscountProperties.InitialLimitsNonNegative` | discount-calcs/src/main/java/org/example/DiscountCalc.java:100 | when every listed limit is non-negative, every initial limit is too |
| `DiscountCalc.Registry.constructor` | discount-calcs/src/main/java/org/example/DiscountCalc.java:94-106 | the loops build limits, method map and zero spent as the specification functions give them, and the registry invariant (conservation) holds |
| `DiscountCalc.Registry.SelectBest` | discount-calcs/src/main/java/org/example/DiscountCalc.java:109-150 | the running choice after full points, the promotion loop and the split loop is the strict-`>` selection over all feasible candidates, in that order |
| `DiscountCalc.Registry.PromotionPass` | discount-calcs/src/main/java/org/example/DiscountCalc.java:124-133 | trying each promotion in list order extends the selection by exactly the feasible full-card candidates of those promotions |
| `DiscountCalc.Registry.SplitPass` | discount-calcs/src/main/java/org/example/DiscountCalc.java:136-150 | trying each listed method in order extends the selection by exactly the feasible split candidates |
| `DiscountCalc.Registry.Commit` | discount-calcs/src/main/java/org/example/DiscountCalc.java:153-159 | after the loop over the entries, spent has gained and limits have lost each amount; an absent key is inserted, as `merge` does |
| `DiscountCalc.Registry.Pay` | discount-calcs/src/main/java/org/example/DiscountCalc.java:108-162 | one order moves the ledger to its specified successor; it is paid iff a candidate was kept; unpaid leaves both maps unchanged; the registry invariant is kept |
| `DiscountCalc.ComputePayments` | discount-calcs/src/main/java/org/example/DiscountCalc.java:94-166 | the result has exactly the listed ids as keys, and per id spent plus the remaining limit is the initial limit; with well-formed inputs each spent amount is between 0 and the initial limit; the unpaid ids come in input order |
| `DiscountProperties.PickIndex` | discount-calcs/src/main/java/org/example/DiscountCalc.java:110-150 | the strict comparison from -1 keeps the first candidate with the largest discount, or nothing, with all discounts at most -1 |
| `DiscountProperties.PickNone` | discount-calcs/src/main/java/org/example/DiscountCalc.java:110-111 | nothing is kept iff no candidate's discount exceeds the initial -1 |
| `DiscountProperties.PickFirstMaximum` | discount-calcs/src/main/java/org/example/DiscountCalc.java:117-150 | conversely, a candidate that is the first maximum is exactly the one kept (ties go to the earliest) |
| `DiscountProperties.PickIsCandidate` | discount-calcs/src/main/java/org/example/DiscountCalc.java:117-150 | what is kept is one of the candidates and no candidate has a larger discount |
| `DiscountProperties.CardTierFacts` | discount-calcs/src/main/java/org/example/DiscountCalc.java:124-133 | every full-card candidate comes from a promotion naming a known method other than `PUNKTY`; it earns that card's own discount and charges only that card, within its limit |
| `DiscountProperties.PartialFacts` | discount-calcs/src/main/java/org/example/DiscountCalc.java:136-148 | under the gate, a split earns exactly 10%; points are charged as much of the cost as their limit allows, `min(points limit, cost)`, and the card the rest, within its limit; a share is present only when positive, and the points share is at least 10% of the value |
| `DiscountProperties.PartialTierFacts` | discount-calcs/src/main/java/org/example/DiscountCalc.java:136-150 | every split candidate has that shape, with exactly that points share, and pairs points with some listed method, whatever that method's own discount or promotions |
| `DiscountProperties.CardTierComplete` | discount-calcs/src/main/java/org/example/DiscountCalc.java:124-133 | conversely, every promotion whose full-card payment is feasible has that payment among the card candidates |
| `DiscountProperties.PartialTierComplete` | discount-calcs/src/main/java/org/example/DiscountCalc.java:137-149 | conversely, every listed method whose split with points is feasible has that split among the split candidates |
| `DiscountProperties.NoBetterFeasibleOption` | discount-calcs/src/main/java/org/example/DiscountCalc.java:113-150 | no feasible option earns more than the choice: not full points, not any promoted card, and, once the gate passes, not a split with any listed method |
| `DiscountProperties.CandidatesFit` | discount-calcs/src/main/java/org/example/DiscountCalc.java:114-150 | on a registry built from the list, every candidate charges only known ids, within their current limits, and charges in total the value less its discount |
| `DiscountProperties.CandidatesNonNegative` | discount-calcs/src/main/java/org/example/DiscountCalc.java:116-147 | with a non-negative value and listed discounts in [0, 100] (limits unconstrained), every candidate's discount and amounts are non-negative |
| `DiscountProperties.UnpaidIffNoCandidate` | discount-calcs/src/main/java/org/example/DiscountCalc.java:153-162 | with a non-negative value and listed discounts in [0, 100], an order goes unpaid exactly when it has no feasible candidate |
| `DiscountProperties.SettleFacts` | discount-calcs/src/main/java/org/example/DiscountCalc.java:153-162 | one order adds no key; per id it keeps spent plus limit; it keeps limits non-negative; a paid order is charged in total its value less the chosen discount; an unpaid order changes nothing |
| `DiscountProperties.SettleSpentGrows` | discount-calcs/src/main/java/org/example/DiscountCalc.java:157 | with a non-negative value and listed discounts in [0, 100], no spent amount ever decreases |
| `DiscountProperties.FinalConserves` | discount-calcs/src/main/java/org/example/DiscountCalc.java:105-163 | after any prefix of the orders, the keys are the listed ids and per id spent plus limit equals the initial limit |
| `DiscountProperties.FinalWithinLimits` | discount-calcs/src/main/java/org/example/DiscountCalc.java:108-163 | with non-negative listed limits, and any discounts and order values, no limit goes negative, so no spent amount exceeds its initial limit |
| `DiscountProperties.FinalSpentBounds` | discount-calcs/src/main/java/org/example/DiscountCalc.java:108-163 | with non-negative order values and limits and discounts in [0, 100], every spent amount stays between 0 and its initial limit |
| `DiscountCalcExamples.FullPaymentWithPoints` | discount-calcs/src/test/java/org/example/DiscountCalcTest.java:10-28 | value 100 with points at 15% and limit 100 charges `PUNKTY` 85 |
| `DiscountCalcExamples.PaymentWithCardPromotion` | discount-calcs/src/test/java/org/example/DiscountCalcTest.java:30-48 | value 200 with promotion mZysk at 10% and limit 200 charges mZysk 180 |
| `DiscountCalcExamples.FullPaymentWithPointsWhenMoreProfitable` | discount-calcs/src/test/java/org/example/DiscountCalcTest.java:50-74 | value 50 with points at 15% against mZysk at 5% charges `PUNKTY` 42.5 and mZysk 0 |
| `DiscountCalcExamples.SplitOnly` | discount-calcs/src/main/java/org/example/DiscountCalc.java:136-148 | when only a split fits, a 0% card still gets the 10% split: points 20, card 70 |
| `DiscountCalcExamples.TieKeepsPromotedCard` | discount-calcs/src/main/java/org/example/DiscountCalc.java:124-150 | a promoted card at 10% ties with a split at 10%; the card, evaluated first, is kept |
| `DiscountCalcExamples.SequentialExhaustion` | discount-calcs/src/main/java/org/example/DiscountCalc.java:108-163 | two orders compete for a card whose limit covers exactly one; the first is paid and the second goes unpaid |

## Left out

- `main` and `printUsage` (argument checks, `System.exit`, JSON loading with Jackson) are file I/O and a foreign library. The model starts from two already-parsed sequences.
- Printing the result (the `1e-10` filter, `%.2f` formatting, `HashMap` iteration order) is presentation only.
- IEEE-754 `double` rounding is not modelled. Arithmetic is exact over `real`, so `value * (1 - d / 100)` and `value - value * d / 100` are equal here, and `0.10` is exactly a tenth.
- `SettleFacts` and `FinalWithinLimits` keep limits non-negative only in exact arithmetic. In the source, the feasibility test (lines 115 and 126) and the charge (lines 119 and 130) are different `double` expressions, so a limit can end slightly below 0.
- The `System.err` line for an unpaid order is modelled as the returned sequence of unpaid order ids, not as output.
- `null` values are not modelled, because the model's records cannot hold `null`. In the source, a `null` order id only changes the diagnostic text (line 161). A `null` method id is an ordinary `HashMap` key at lines 100-106. It makes the source throw at line 138 once the split loop runs, and at line 126 when a promotion, possibly a `null` one, looks it up. A `null` promotions list throws at line 124.
- `Commit` visits the payment map's keys in an unspecified order, as the source's `entrySet` loop does. Its result does not depend on that order, because each id is updated independently.
- `Registry.SelectBest` keeps the source's two loops in two helper methods (`PromotionPass`, `SplitPass`). This keeps each proof small; the evaluation order is the same.
