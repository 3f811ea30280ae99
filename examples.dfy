/**
 * Concrete runs of the allocator: the three cases of the repository's unit
 * tests, plus a split-only order, a tie between a promoted card and a split,
 * and two orders competing for one card's limit.
 */
module DiscountCalcExamples {
  import opened Wrappers
  import opened DiscountModel

  /** Building the registry from one method. */
  lemma OneMethod(a: PaymentMethod)
    ensures InitialLimits([a]) == map[a.id := a.limit]
    ensures MethodMapOf([a]) == map[a.id := a]
    ensures ZeroSpent([a]) == map[a.id := 0.0]
  {
    assert [a][..0] == [];
  }

  /** Building the registry from two methods with different ids. */
  lemma TwoMethods(a: PaymentMethod, b: PaymentMethod)
    requires a.id != b.id
    ensures InitialLimits([a, b]) == map[a.id := a.limit, b.id := b.limit]
    ensures MethodMapOf([a, b]) == map[a.id := a, b.id := b]
    ensures ZeroSpent([a, b]) == map[a.id := 0.0, b.id := 0.0]
  {
    assert [a, b][..1] == [a];
    OneMethod(a);
  }

  /** A run of one order on a fresh registry commits the chosen candidate. */
  lemma SingleOrder(o: Order, ms: seq<PaymentMethod>, c: Candidate)
    requires Pick(Candidates(o, InitialLimits(ms), MethodMapOf(ms), ms)) == Chosen(c)
    ensures Final([o], ms) == Ledger(AddAll(InitialLimits(ms), Negated(c.payments)), AddAll(ZeroSpent(ms), c.payments))
  {
    assert [o][..0] == [];
  }

  /** Committing payments on two ids to a two-entry map. */
  lemma AddAllPair(a: string, b: string, x: real, y: real, p: Payments)
    requires a != b && p.Keys <= {a, b}
    ensures AddAll(map[a := x, b := y], p) == map[a := x + Get(p, a), b := y + Get(p, b)]
  {
  }

  // ---------------------------------------------------------------------------
  // The repository's unit tests
  // ---------------------------------------------------------------------------

  const Points15: PaymentMethod := PaymentMethod(POINTS_ID, 15.0, 100.0)

  /** Value 100, points at 15% with limit 100: the points account is charged 85. */
  lemma FullPaymentWithPoints()
    ensures Final([Order("ORDER1", 100.0, [])], [Points15]).spent == map[POINTS_ID := 85.0]
  {
    var ms := [Points15];
    var o := Order("ORDER1", 100.0, []);
    var c := Candidate(15.0, map[POINTS_ID := 85.0]);
    OneMethod(Points15);
    assert Candidates(o, InitialLimits(ms), MethodMapOf(ms), ms) == [c] by {
      assert ms[..0] == [];
      assert PointsTier(100.0, InitialLimits(ms), MethodMapOf(ms)) == [c];
      assert PartialTier(100.0, ms, InitialLimits(ms)) == [];
    }
    assert Pick([c]) == Chosen(c);
    SingleOrder(o, ms, c);
  }

  const MZysk10: PaymentMethod := PaymentMethod("mZysk", 10.0, 200.0)

  /** Value 200 with promotion mZysk at 10% and limit 200: mZysk is charged 180. */
  lemma PaymentWithCardPromotion()
    ensures Final([Order("ORDER2", 200.0, ["mZysk"])], [MZysk10]).spent == map["mZysk" := 180.0]
  {
    var ms := [MZysk10];
    var o := Order("ORDER2", 200.0, ["mZysk"]);
    var c := Candidate(20.0, map["mZysk" := 180.0]);
    OneMethod(MZysk10);
    assert Candidates(o, InitialLimits(ms), MethodMapOf(ms), ms) == [c] by {
      assert o.promotions[..0] == [];
      assert PointsTier(200.0, InitialLimits(ms), MethodMapOf(ms)) == [];
      assert CardTier(200.0, ["mZysk"], InitialLimits(ms), MethodMapOf(ms)) == [c];
    }
    assert Pick([c]) == Chosen(c);
    SingleOrder(o, ms, c);
  }

  const MZysk5: PaymentMethod := PaymentMethod("mZysk", 5.0, 50.0)

  lemma PointsVersusCardCandidates()
    ensures var ms := [Points15, MZysk5];
      Candidates(Order("ORDER3", 50.0, ["mZysk"]), InitialLimits(ms), MethodMapOf(ms), ms)
      == [Candidate(7.5, map[POINTS_ID := 42.5]), Candidate(2.5, map["mZysk" := 47.5]),
          Candidate(5.0, map[POINTS_ID := 45.0])]
  {
    var ms := [Points15, MZysk5];
    TwoMethods(Points15, MZysk5);
    var lim, mm := InitialLimits(ms), MethodMapOf(ms);
    assert PointsTier(50.0, lim, mm) == [Candidate(7.5, map[POINTS_ID := 42.5])];
    assert CardTier(50.0, ["mZysk"], lim, mm) == [Candidate(2.5, map["mZysk" := 47.5])] by {
      assert ["mZysk"][..0] == [];
    }
    assert PartialTier(50.0, ms, lim) == [Candidate(5.0, map[POINTS_ID := 45.0])] by {
      assert ms[..1] == [Points15];
      assert PartialTier(50.0, [Points15], lim) == [] by { assert [Points15][..0] == []; }
      assert PointsUsed(50.0, lim) == 45.0;
      assert Partial(50.0, MZysk5, lim) == Some(Candidate(5.0, map[POINTS_ID := 45.0]));
    }
  }

  /** Value 50, points at 15% against mZysk at 5%: points win, 42.5 to points and nothing to mZysk. */
  lemma FullPaymentWithPointsWhenMoreProfitable()
    ensures Final([Order("ORDER3", 50.0, ["mZysk"])], [Points15, MZysk5]).spent
      == map[POINTS_ID := 42.5, "mZysk" := 0.0]
  {
    var full := Candidate(7.5, map[POINTS_ID := 42.5]);
    var card := Candidate(2.5, map["mZysk" := 47.5]);
    var split := Candidate(5.0, map[POINTS_ID := 45.0]);
    PointsVersusCardCandidates();
    assert Pick([full, card, split]) == Chosen(full) by {
      assert [full, card, split][..2] == [full, card] && [full, card][..1] == [full];
      assert Pick([full]) == Chosen(full);
      assert Pick([full, card]) == Chosen(full);
    }
    SingleOrder(Order("ORDER3", 50.0, ["mZysk"]), [Points15, MZysk5], full);
    assert AddAll(ZeroSpent([Points15, MZysk5]), full.payments) == map[POINTS_ID := 42.5, "mZysk" := 0.0] by {
      TwoMethods(Points15, MZysk5);
      AddAllPair(POINTS_ID, "mZysk", 0.0, 0.0, full.payments);
    }
  }

  // ---------------------------------------------------------------------------
  // Further cases
  // ---------------------------------------------------------------------------

  const FewPoints: PaymentMethod := PaymentMethod(POINTS_ID, 15.0, 20.0)
  const PlainCard: PaymentMethod := PaymentMethod("card", 0.0, 100.0)

  lemma SplitOnlyCandidates()
    ensures var ms := [FewPoints, PlainCard];
      Candidates(Order("O", 100.0, []), InitialLimits(ms), MethodMapOf(ms), ms)
      == [Candidate(10.0, map[POINTS_ID := 20.0, "card" := 70.0])]
  {
    var ms := [FewPoints, PlainCard];
    TwoMethods(FewPoints, PlainCard);
    var lim, mm := InitialLimits(ms), MethodMapOf(ms);
    assert PointsTier(100.0, lim, mm) == [];
    assert PartialTier(100.0, ms, lim) == [Candidate(10.0, map[POINTS_ID := 20.0, "card" := 70.0])] by {
      assert ms[..1] == [FewPoints];
      assert PartialTier(100.0, [FewPoints], lim) == [] by { assert [FewPoints][..0] == []; }
      assert PointsUsed(100.0, lim) == 20.0;
      assert Partial(100.0, PlainCard, lim) == Some(Candidate(10.0, map[POINTS_ID := 20.0, "card" := 70.0]));
    }
  }

  /** Only a split fits, as points cannot cover the whole order; a 0% card still gets the 10% split. */
  lemma SplitOnly()
    ensures Final([Order("O", 100.0, [])], [FewPoints, PlainCard]).spent
      == map[POINTS_ID := 20.0, "card" := 70.0]
  {
    var split := Candidate(10.0, map[POINTS_ID := 20.0, "card" := 70.0]);
    SplitOnlyCandidates();
    assert Pick([split]) == Chosen(split);
    SingleOrder(Order("O", 100.0, []), [FewPoints, PlainCard], split);
    assert AddAll(ZeroSpent([FewPoints, PlainCard]), split.payments) == map[POINTS_ID := 20.0, "card" := 70.0] by {
      TwoMethods(FewPoints, PlainCard);
      AddAllPair(POINTS_ID, "card", 0.0, 0.0, split.payments);
    }
  }

  const NoDiscountPoints: PaymentMethod := PaymentMethod(POINTS_ID, 0.0, 50.0)
  const Card10: PaymentMethod := PaymentMethod("card", 10.0, 200.0)

  lemma TieCandidates()
    ensures var ms := [NoDiscountPoints, Card10];
      Candidates(Order("O", 100.0, ["card"]), InitialLimits(ms), MethodMapOf(ms), ms)
      == [Candidate(10.0, map["card" := 90.0]), Candidate(10.0, map[POINTS_ID := 50.0, "card" := 40.0])]
  {
    var ms := [NoDiscountPoints, Card10];
    TwoMethods(NoDiscountPoints, Card10);
    var lim, mm := InitialLimits(ms), MethodMapOf(ms);
    assert PointsTier(100.0, lim, mm) == [];
    assert CardTier(100.0, ["card"], lim, mm) == [Candidate(10.0, map["card" := 90.0])] by {
      assert ["card"][..0] == [];
    }
    assert PartialTier(100.0, ms, lim) == [Candidate(10.0, map[POINTS_ID := 50.0, "card" := 40.0])] by {
      assert ms[..1] == [NoDiscountPoints];
      assert PartialTier(100.0, [NoDiscountPoints], lim) == [] by { assert [NoDiscountPoints][..0] == []; }
      assert PointsUsed(100.0, lim) == 50.0;
      assert Partial(100.0, Card10, lim) == Some(Candidate(10.0, map[POINTS_ID := 50.0, "card" := 40.0]));
    }
  }

  /** A promoted card at 10% ties with a split at 10%: the card, evaluated first, is kept. */
  lemma TieKeepsPromotedCard()
    ensures Final([Order("O", 100.0, ["card"])], [NoDiscountPoints, Card10]).spent
      == map[POINTS_ID := 0.0, "card" := 90.0]
  {
    var card := Candidate(10.0, map["card" := 90.0]);
    var split := Candidate(10.0, map[POINTS_ID := 50.0, "card" := 40.0]);
    TieCandidates();
    assert Pick([card, split]) == Chosen(card) by {
      assert [card, split][..1] == [card];
      assert Pick([card]) == Chosen(card);
    }
    SingleOrder(Order("O", 100.0, ["card"]), [NoDiscountPoints, Card10], card);
    assert AddAll(ZeroSpent([NoDiscountPoints, Card10]), card.payments) == map[POINTS_ID := 0.0, "card" := 90.0] by {
      TwoMethods(NoDiscountPoints, Card10);
      AddAllPair(POINTS_ID, "card", 0.0, 0.0, card.payments);
    }
  }

  const Tight: PaymentMethod := PaymentMethod("mZysk", 10.0, 90.0)

  /** Two orders need one card whose limit covers exactly one: the first is paid, the second is not. */
  lemma SequentialExhaustion()
    ensures var os := [Order("O1", 100.0, ["mZysk"]), Order("O2", 100.0, ["mZysk"])];
      Final(os, [Tight]) == Ledger(map["mZysk" := 0.0], map["mZysk" := 90.0])
      && Unpaid(os, [Tight]) == ["O2"]
  {
    var os := [Order("O1", 100.0, ["mZysk"]), Order("O2", 100.0, ["mZysk"])];
    var ms := [Tight];
    OneMethod(Tight);
    var mm := MethodMapOf(ms);
    var c := Candidate(10.0, map["mZysk" := 90.0]);
    assert Candidates(os[0], InitialLimits(ms), mm, ms) == [c] by {
      assert ["mZysk"][..0] == [];
      assert CardTier(100.0, ["mZysk"], InitialLimits(ms), mm) == [c];
    }
    assert Pick([c]) == Chosen(c);
    SingleOrder(os[0], ms, c);
    var after := Ledger(map["mZysk" := 0.0], map["mZysk" := 90.0]);
    assert os[..1] == [os[0]] && [os[0]][..0] == [];
    assert Final(os[..1], ms) == after;
    assert Candidates(os[1], after.limits, mm, ms) == [] by {
      assert ["mZysk"][..0] == [];
      assert CardTier(100.0, ["mZysk"], after.limits, mm) == [];
    }
    assert Unpaid(os[..1], ms) == [];
  }
}
