/**
 * What the allocator guarantees: the choice is the first candidate with the
 * largest discount, every candidate fits the current limits and charges the
 * discounted value, and across a run each method's spent amount and remaining
 * limit always add up to its initial limit.
 */
module DiscountProperties {
  import opened Wrappers
  import opened DiscountModel

  // ---------------------------------------------------------------------------
  // Payments: what they charge and whether the limits cover them
  // ---------------------------------------------------------------------------

  /** The total amount a payment map charges. */
  ghost function Total(p: Payments): real
    decreases |p|
  {
    if p == map[] then 0.0
    else
      var id :| id in p;
      p[id] + Total(p - {id})
  }

  /** The total is one entry plus the total of the rest, for the entry the definition picks. */
  lemma TotalUnfold(p: Payments) returns (k: string)
    requires p != map[]
    ensures k in p && Total(p) == p[k] + Total(p - {k})
  {
    k :| k in p && Total(p) == p[k] + Total(p - {k});
  }

  lemma TotalSingle(a: string, x: real)
    ensures Total(map[a := x]) == x
  {
    var p := map[a := x];
    assert p - {a} == map[];
  }

  lemma TotalPair(a: string, x: real, b: string, y: real)
    requires a != b
    ensures Total(map[a := x][b := y]) == x + y
  {
    var p := map[a := x][b := y];
    assert a in p;
    var k := TotalUnfold(p);
    if k == a {
      assert p - {a} == map[b := y];
      TotalSingle(b, y);
    } else {
      assert p - {b} == map[a := x];
      TotalSingle(a, x);
    }
  }

  /** Every amount of `c` is charged to a known id and is within that id's current limit. */
  ghost predicate Fits(c: Candidate, limits: map<string, real>)
  {
    forall id :: id in c.payments ==> id in limits && c.payments[id] <= limits[id]
  }

  /** Every listed discount is a percentage between 0 and 100. */
  ghost predicate DiscountsInRange(ms: seq<PaymentMethod>)
  {
    forall i :: 0 <= i < |ms| ==> 0.0 <= ms[i].discount <= 100.0
  }

  /** Every listed limit is non-negative. */
  ghost predicate LimitsNonNegative(ms: seq<PaymentMethod>)
  {
    forall i :: 0 <= i < |ms| ==> ms[i].limit >= 0.0
  }

  /** Inputs of the kind the source expects: non-negative limits, discounts between 0 and 100. */
  ghost predicate WellFormedMethods(ms: seq<PaymentMethod>)
  {
    DiscountsInRange(ms) && LimitsNonNegative(ms)
  }

  ghost predicate WellFormedOrders(os: seq<Order>)
  {
    forall i :: 0 <= i < |os| ==> os[i].value >= 0.0
  }

  // ---------------------------------------------------------------------------
  // Selection
  // ---------------------------------------------------------------------------

  lemma PickExtend(cs: seq<Candidate>, o: Option<Candidate>)
    ensures Pick(cs + Listed(o)) == if o.Some? then Step(Pick(cs), o.value) else Pick(cs)
  {
    if o.Some? {
      assert (cs + [o.value])[..|cs|] == cs;
    } else {
      assert cs + [] == cs;
    }
  }

  /**
   * The strict comparison against a running best that starts at -1 keeps the
   * first candidate with the largest discount (`i`), and keeps nothing
   * (`i == -1`) exactly when no candidate's discount exceeds -1.
   */
  lemma {:induction false} PickIndex(cs: seq<Candidate>) returns (i: int)
    ensures i == -1 ==> Pick(cs) == NoChoice && forall j :: 0 <= j < |cs| ==> cs[j].discount <= -1.0
    ensures i != -1 ==> IsFirstMaximum(cs, i) && Pick(cs) == Chosen(cs[i])
    decreases |cs|
  {
    if cs == [] {
      i := -1;
    } else {
      var n := |cs| - 1;
      var s := cs[..n];
      var k := PickIndex(s);
      var best := Pick(s);
      assert Pick(cs) == Step(best, cs[n]);
      assert best.discount == if k == -1 then -1.0 else s[k].discount;
      if cs[n].discount > best.discount {
        i := n;
        forall j | 0 <= j < n ensures cs[j].discount < cs[n].discount {
          assert cs[j] == s[j];
        }
      } else {
        i := k;
        forall j | 0 <= j < n ensures cs[j] == s[j] {}
      }
    }
  }

  /** An order is left unpaid exactly when no candidate's discount exceeds the initial -1. */
  lemma PickNone(cs: seq<Candidate>)
    ensures Pick(cs).payments.None? <==> forall j :: 0 <= j < |cs| ==> cs[j].discount <= -1.0
  {
    var i := PickIndex(cs);
  }

  /** Conversely, the first maximum, when there is one, is exactly what is kept. */
  lemma PickFirstMaximum(cs: seq<Candidate>, i: int)
    requires IsFirstMaximum(cs, i)
    ensures Pick(cs) == Chosen(cs[i])
  {
    var k := PickIndex(cs);
  }

  /** What is kept is one of the candidates, and no candidate has a larger discount. */
  lemma PickIsCandidate(cs: seq<Candidate>)
    ensures Pick(cs).payments.Some? ==>
      && Candidate(Pick(cs).discount, Pick(cs).payments.value) in cs
      && forall j :: 0 <= j < |cs| ==> cs[j].discount <= Pick(cs).discount
  {
    var i := PickIndex(cs);
    if i != -1 {
      assert cs[i] == Candidate(Pick(cs).discount, Pick(cs).payments.value);
    }
  }

  // ---------------------------------------------------------------------------
  // The three tiers of candidates
  // ---------------------------------------------------------------------------

  lemma Percentage(value: real, d: real)
    ensures value * (1.0 - d / 100.0) == value - value * d / 100.0
  {}

  /** A full payment of the discounted value with method `id` at its own discount, within its limit. */
  ghost predicate FullShape(c: Candidate, value: real, id: string, limits: map<string, real>,
                            mm: map<string, PaymentMethod>)
  {
    && id in mm
    && c.discount == value * mm[id].discount / 100.0
    && c.payments == map[id := value - c.discount]
    && value - c.discount <= Get(limits, id)
  }

  /** Full points: charges the points account the discounted value, within its limit. */
  lemma FullPointsFacts(value: real, limits: map<string, real>, mm: map<string, PaymentMethod>)
    ensures FullPoints(value, limits, mm).Some? ==> FullShape(FullPoints(value, limits, mm).value, value, POINTS_ID, limits, mm)
  {
    if POINTS_ID in mm {
      Percentage(value, mm[POINTS_ID].discount);
    }
  }

  /**
   * A full-card candidate comes from a promotion that names a known method
   * other than the points account, earns that method's own discount and
   * charges only that method, within its limit.
   */
  lemma {:induction false} CardTierFacts(value: real, promos: seq<string>, limits: map<string, real>,
                                         mm: map<string, PaymentMethod>)
    requires forall id :: id in mm ==> mm[id].id == id
    ensures forall c :: c in CardTier(value, promos, limits, mm) ==>
      exists id :: id in promos && id != POINTS_ID && FullShape(c, value, id, limits, mm)
    decreases |promos|
  {
    if promos != [] {
      var n := |promos| - 1;
      var front := promos[..n];
      CardTierFacts(value, front, limits, mm);
      var last := FullCard(value, promos[n], limits, mm);
      if last.Some? {
        Percentage(value, mm[promos[n]].discount);
        assert FullShape(last.value, value, promos[n], limits, mm);
      }
      forall c | c in CardTier(value, promos, limits, mm)
        ensures exists id :: id in promos && id != POINTS_ID && FullShape(c, value, id, limits, mm)
      {
        if c in CardTier(value, front, limits, mm) {
          var id :| id in front && id != POINTS_ID && FullShape(c, value, id, limits, mm);
          assert id in promos;
        } else {
          assert c == last.value;
          assert promos[n] in promos;
        }
      }
    }
  }

  /**
   * The shape of a split payment of points and card `card`: each share is
   * positive and within its limit, and points cover as much of the cost as
   * their limit allows, the card the rest.
   */
  ghost predicate PartialShape(c: Candidate, value: real, card: string, limits: map<string, real>)
  {
    && card != POINTS_ID
    && c.discount == value * PARTIAL_POINTS_DISCOUNT / 100.0
    && c.payments.Keys <= {POINTS_ID, card}
    && Get(c.payments, POINTS_ID) + Get(c.payments, card) == value - c.discount
    && Get(c.payments, POINTS_ID) <= Get(limits, POINTS_ID)
    && Get(c.payments, card) <= Get(limits, card)
    && (forall id :: id in c.payments ==> c.payments[id] > 0.0)
    && (POINTS_ID in c.payments ==> c.payments[POINTS_ID] >= value * MIN_POINTS_PERCENTAGE)
    && Get(c.payments, POINTS_ID) == Min(Get(limits, POINTS_ID), value - c.discount)
  }

  lemma PartialFacts(value: real, m: PaymentMethod, limits: map<string, real>)
    requires Get(limits, POINTS_ID) >= value * MIN_POINTS_PERCENTAGE
    ensures Partial(value, m, limits).Some? ==> PartialShape(Partial(value, m, limits).value, value, m.id, limits)
  {}

  /**
   * A split candidate always earns exactly 10% of the value, whatever the
   * paired card's own discount, and pairs points with a non-points method of
   * the list, the shares adding up to the discounted value.
   */
  lemma {:induction false} PartialTierFacts(value: real, ms: seq<PaymentMethod>, limits: map<string, real>)
    requires Get(limits, POINTS_ID) >= value * MIN_POINTS_PERCENTAGE
    ensures forall c :: c in PartialTier(value, ms, limits) ==>
      exists m :: m in ms && PartialShape(c, value, m.id, limits)
    decreases |ms|
  {
    if ms != [] {
      var n := |ms| - 1;
      var front := ms[..n];
      PartialTierFacts(value, front, limits);
      PartialFacts(value, ms[n], limits);
      forall c | c in PartialTier(value, ms, limits)
        ensures exists m :: m in ms && PartialShape(c, value, m.id, limits)
      {
        if c in PartialTier(value, front, limits) {
          var m :| m in front && PartialShape(c, value, m.id, limits);
          assert m in ms;
        } else {
          assert c == Partial(value, ms[n], limits).value;
          assert ms[n] in ms;
        }
      }
    }
  }

  /** Every promotion whose full-card payment is feasible contributes it to the card tier. */
  lemma {:induction false} CardTierComplete(value: real, promos: seq<string>, limits: map<string, real>,
                                            mm: map<string, PaymentMethod>)
    ensures forall i :: 0 <= i < |promos| && FullCard(value, promos[i], limits, mm).Some? ==>
      FullCard(value, promos[i], limits, mm).value in CardTier(value, promos, limits, mm)
    decreases |promos|
  {
    if promos != [] {
      var n := |promos| - 1;
      CardTierComplete(value, promos[..n], limits, mm);
      forall i | 0 <= i < n ensures promos[..n][i] == promos[i] {}
    }
  }

  /** Every listed method whose split with points is feasible contributes it to the split tier. */
  lemma {:induction false} PartialTierComplete(value: real, ms: seq<PaymentMethod>, limits: map<string, real>)
    ensures forall j :: 0 <= j < |ms| && Partial(value, ms[j], limits).Some? ==>
      Partial(value, ms[j], limits).value in PartialTier(value, ms, limits)
    decreases |ms|
  {
    if ms != [] {
      var n := |ms| - 1;
      PartialTierComplete(value, ms[..n], limits);
      forall j | 0 <= j < n ensures ms[..n][j] == ms[j] {}
    }
  }

  /**
   * No feasible option earns more than the choice: not full points, not a
   * full payment with any promoted card, and, once the gate lets splits be
   * tried, not a split with any listed method.
   */
  lemma NoBetterFeasibleOption(o: Order, limits: map<string, real>, ms: seq<PaymentMethod>)
    ensures var mm := MethodMapOf(ms);
      var d := Pick(Candidates(o, limits, mm, ms)).discount;
      && (FullPoints(o.value, limits, mm).Some? ==> FullPoints(o.value, limits, mm).value.discount <= d)
      && (forall i :: 0 <= i < |o.promotions| && FullCard(o.value, o.promotions[i], limits, mm).Some? ==>
            FullCard(o.value, o.promotions[i], limits, mm).value.discount <= d)
      && (PartialGate(o.value, limits, mm) ==>
            forall j :: 0 <= j < |ms| && Partial(o.value, ms[j], limits).Some? ==>
              Partial(o.value, ms[j], limits).value.discount <= d)
  {
    var mm := MethodMapOf(ms);
    var cs := Candidates(o, limits, mm, ms);
    var k := PickIndex(cs);
    assert forall c :: c in cs ==> c.discount <= Pick(cs).discount;
    CardTierComplete(o.value, o.promotions, limits, mm);
    PartialTierComplete(o.value, ms, limits);
  }

  /** A candidate of either full kind or a split one charges exactly the value less its discount. */
  lemma ShapeTotal(c: Candidate, value: real, limits: map<string, real>, mm: map<string, PaymentMethod>, id: string)
    requires FullShape(c, value, id, limits, mm) || PartialShape(c, value, id, limits)
    ensures Total(c.payments) == value - c.discount
  {
    var p := c.payments;
    if FullShape(c, value, id, limits, mm) {
      TotalSingle(id, value - c.discount);
    } else if POINTS_ID in p && id in p {
      assert p == map[POINTS_ID := p[POINTS_ID]][id := p[id]];
      TotalPair(POINTS_ID, p[POINTS_ID], id, p[id]);
    } else if POINTS_ID in p {
      assert p == map[POINTS_ID := p[POINTS_ID]];
      TotalSingle(POINTS_ID, p[POINTS_ID]);
    } else if id in p {
      assert p == map[id := p[id]];
      TotalSingle(id, p[id]);
    } else {
      assert p == map[];
    }
  }

  /** Every candidate has one of the three shapes. */
  lemma CandidateShapes(o: Order, limits: map<string, real>, ms: seq<PaymentMethod>)
    ensures forall c :: c in Candidates(o, limits, MethodMapOf(ms), ms) ==>
      || FullShape(c, o.value, POINTS_ID, limits, MethodMapOf(ms))
      || (exists id :: id in o.promotions && id != POINTS_ID && FullShape(c, o.value, id, limits, MethodMapOf(ms)))
      || (PartialGate(o.value, limits, MethodMapOf(ms)) && exists m :: m in ms && PartialShape(c, o.value, m.id, limits))
  {
    var mm := MethodMapOf(ms);
    var v := o.value;
    FullPointsFacts(v, limits, mm);
    CardTierFacts(v, o.promotions, limits, mm);
    if PartialGate(v, limits, mm) {
      PartialTierFacts(v, ms, limits);
    }
  }

  /** On a registry built from `ms`, every candidate fits the limits and charges the discounted value. */
  lemma CandidatesFit(o: Order, limits: map<string, real>, ms: seq<PaymentMethod>)
    requires limits.Keys == Ids(ms)
    ensures forall c :: c in Candidates(o, limits, MethodMapOf(ms), ms) ==>
      Fits(c, limits) && Total(c.payments) == o.value - c.discount
  {
    var mm := MethodMapOf(ms);
    CandidateShapes(o, limits, ms);
    forall c | c in Candidates(o, limits, mm, ms)
      ensures Fits(c, limits) && Total(c.payments) == o.value - c.discount
    {
      if FullShape(c, o.value, POINTS_ID, limits, mm) {
        ShapeTotal(c, o.value, limits, mm, POINTS_ID);
      } else if exists id :: id in o.promotions && id != POINTS_ID && FullShape(c, o.value, id, limits, mm) {
        var id :| id in o.promotions && id != POINTS_ID && FullShape(c, o.value, id, limits, mm);
        ShapeTotal(c, o.value, limits, mm, id);
      } else {
        var m :| m in ms && PartialShape(c, o.value, m.id, limits);
        assert POINTS_ID in limits;
        assert m.id in Ids(ms) by {
          var i :| 0 <= i < |ms| && ms[i] == m;
        }
        ShapeTotal(c, o.value, limits, mm, m.id);
      }
    }
  }

  /** With well-formed inputs every candidate earns a non-negative discount and charges non-negative amounts. */
  lemma CandidatesNonNegative(o: Order, limits: map<string, real>, ms: seq<PaymentMethod>)
    requires o.value >= 0.0 && DiscountsInRange(ms)
    ensures forall c :: c in Candidates(o, limits, MethodMapOf(ms), ms) ==> NonNegative(c)
  {
    var mm := MethodMapOf(ms);
    var v := o.value;
    MethodMapRange(ms);
    FullPointsFacts(v, limits, mm);
    CardTierFacts(v, o.promotions, limits, mm);
    if PartialGate(v, limits, mm) {
      PartialTierFacts(v, ms, limits);
    }
    forall c | c in Candidates(o, limits, mm, ms) ensures NonNegative(c) {
      if c in PointsTier(v, limits, mm) {
        FullShapeNonNegative(c, v, POINTS_ID, limits, mm);
      } else if c in CardTier(v, o.promotions, limits, mm) {
        var id :| id in o.promotions && id != POINTS_ID && FullShape(c, v, id, limits, mm);
        FullShapeNonNegative(c, v, id, limits, mm);
      } else {
        assert c in PartialTier(v, ms, limits);
        var m :| m in ms && PartialShape(c, v, m.id, limits);
      }
    }
  }

  ghost predicate NonNegative(c: Candidate)
  {
    c.discount >= 0.0 && forall id :: id in c.payments ==> c.payments[id] >= 0.0
  }

  lemma FullShapeNonNegative(c: Candidate, value: real, id: string, limits: map<string, real>,
                              mm: map<string, PaymentMethod>)
    requires FullShape(c, value, id, limits, mm)
    requires value >= 0.0 && 0.0 <= mm[id].discount <= 100.0
    ensures NonNegative(c)
  {
    var d := mm[id].discount;
    assert value * d <= value * 100.0;
  }

  /** With well-formed methods every entry of the method map has a discount between 0 and 100. */
  lemma {:induction false} MethodMapRange(ms: seq<PaymentMethod>)
    requires DiscountsInRange(ms)
    ensures forall id :: id in MethodMapOf(ms) ==> 0.0 <= MethodMapOf(ms)[id].discount <= 100.0
    decreases |ms|
  {
    if ms != [] {
      var n := |ms| - 1;
      assert DiscountsInRange(ms[..n]) by {
        forall i | 0 <= i < n ensures 0.0 <= ms[..n][i].discount <= 100.0 {
          assert ms[..n][i] == ms[i];
        }
      }
      MethodMapRange(ms[..n]);
    }
  }

  /** With well-formed inputs an order goes unpaid exactly when it has no feasible candidate. */
  lemma UnpaidIffNoCandidate(l: Ledger, o: Order, ms: seq<PaymentMethod>)
    requires o.value >= 0.0 && DiscountsInRange(ms)
    requires l.limits.Keys == Ids(ms)
    ensures Choice(l, o, ms).payments.None? <==> Candidates(o, l.limits, MethodMapOf(ms), ms) == []
  {
    var cs := Candidates(o, l.limits, MethodMapOf(ms), ms);
    CandidatesNonNegative(o, l.limits, ms);
    PickNone(cs);
    if cs != [] {
      assert cs[0] in cs;
    }
  }

  // ---------------------------------------------------------------------------
  // Building the registry
  // ---------------------------------------------------------------------------

  /** Under duplicate ids the last entry of the list decides the limit and the method. */
  lemma {:induction false} LastWins(ms: seq<PaymentMethod>, i: int)
    requires 0 <= i < |ms|
    requires forall j :: i < j < |ms| ==> ms[j].id != ms[i].id
    ensures InitialLimits(ms)[ms[i].id] == ms[i].limit
    ensures MethodMapOf(ms)[ms[i].id] == ms[i]
    decreases |ms|
  {
    var n := |ms| - 1;
    var prefix := ms[..n];
    assert InitialLimits(ms) == InitialLimits(prefix)[ms[n].id := ms[n].limit];
    assert MethodMapOf(ms) == MethodMapOf(prefix)[ms[n].id := ms[n]];
    if i < n {
      assert prefix[i] == ms[i];
      assert forall j :: i < j < |prefix| ==> prefix[j].id != prefix[i].id by {
        forall j | i < j < |prefix| ensures prefix[j].id != prefix[i].id {
          assert prefix[j] == ms[j];
        }
      }
      LastWins(prefix, i);
      assert ms[n].id != ms[i].id;
    }
  }

  /** Every initial limit is the limit of some entry of the list. */
  lemma {:induction false} InitialLimitsNonNegative(ms: seq<PaymentMethod>)
    requires LimitsNonNegative(ms)
    ensures forall id :: id in InitialLimits(ms) ==> InitialLimits(ms)[id] >= 0.0
    decreases |ms|
  {
    if ms != [] {
      var n := |ms| - 1;
      assert LimitsNonNegative(ms[..n]) by {
        forall i | 0 <= i < n ensures ms[..n][i].limit >= 0.0 {
          assert ms[..n][i] == ms[i];
        }
      }
      InitialLimitsNonNegative(ms[..n]);
    }
  }

  // ---------------------------------------------------------------------------
  // One order, then a whole run
  // ---------------------------------------------------------------------------

  /** Both maps gain exactly the keys the payments name, changed by the same amount in opposite directions. */
  lemma CommitFacts(l: Ledger, p: Payments)
    ensures AddAll(l.limits, Negated(p)).Keys == l.limits.Keys + p.Keys
    ensures AddAll(l.spent, p).Keys == l.spent.Keys + p.Keys
    ensures forall id :: id in l.limits.Keys + p.Keys ==>
      AddAll(l.limits, Negated(p))[id] == Get(l.limits, id) - Get(p, id)
    ensures forall id :: id in l.spent.Keys + p.Keys ==>
      AddAll(l.spent, p)[id] == Get(l.spent, id) + Get(p, id)
  {}

  /** A map with the merged keys and, per key, the sum is the merge. */
  lemma AddAllPointwise(m: map<string, real>, p: Payments, r: map<string, real>)
    requires r.Keys == m.Keys + p.Keys
    requires forall id :: id in r ==> r[id] == Get(m, id) + Get(p, id)
    ensures r == AddAll(m, p)
  {}

  /**
   * One order keeps the registry's shape and its balance: the same keys, no
   * new id, and per id the spent amount plus the limit is unchanged; limits
   * stay non-negative; the charged total is the value less the chosen
   * discount; an unpaid order changes nothing.
   */
  lemma SettleFacts(l: Ledger, o: Order, ms: seq<PaymentMethod>)
    requires l.limits.Keys == Ids(ms) && l.spent.Keys == Ids(ms)
    ensures var l' := Settle(l, o, ms);
      && l'.limits.Keys == Ids(ms) && l'.spent.Keys == Ids(ms)
      && (forall id :: id in Ids(ms) ==> l'.spent[id] + l'.limits[id] == l.spent[id] + l.limits[id])
      && ((forall id :: id in l.limits ==> l.limits[id] >= 0.0) ==> forall id :: id in l'.limits ==> l'.limits[id] >= 0.0)
    ensures Choice(l, o, ms).payments.None? ==> Settle(l, o, ms) == l
    ensures Choice(l, o, ms).payments.Some? ==>
      Total(Choice(l, o, ms).payments.value) == o.value - Choice(l, o, ms).discount
  {
    var cs := Candidates(o, l.limits, MethodMapOf(ms), ms);
    var b := Choice(l, o, ms);
    if b.payments.Some? {
      var p := b.payments.value;
      PickIsCandidate(cs);
      CandidatesFit(o, l.limits, ms);
      assert Fits(Candidate(b.discount, p), l.limits);
      CommitFacts(l, p);
    }
  }

  /** With well-formed inputs one order never lowers a spent amount. */
  lemma SettleSpentGrows(l: Ledger, o: Order, ms: seq<PaymentMethod>)
    requires o.value >= 0.0 && DiscountsInRange(ms)
    requires l.limits.Keys == Ids(ms) && l.spent.Keys == Ids(ms)
    ensures forall id :: id in l.spent ==> Settle(l, o, ms).spent[id] >= l.spent[id]
  {
    var cs := Candidates(o, l.limits, MethodMapOf(ms), ms);
    var b := Choice(l, o, ms);
    SettleFacts(l, o, ms);
    if b.payments.Some? {
      PickIsCandidate(cs);
      CandidatesNonNegative(o, l.limits, ms);
      CommitFacts(l, b.payments.value);
    }
  }

  /** Throughout a run the keys are the listed ids and spent plus limit is the initial limit, per id. */
  lemma {:induction false} FinalConserves(os: seq<Order>, ms: seq<PaymentMethod>)
    ensures var l := Final(os, ms);
      && l.limits.Keys == Ids(ms) && l.spent.Keys == Ids(ms)
      && forall id :: id in Ids(ms) ==> l.spent[id] + l.limits[id] == InitialLimits(ms)[id]
    decreases |os|
  {
    if os != [] {
      var n := |os| - 1;
      FinalConserves(os[..n], ms);
      SettleFacts(Final(os[..n], ms), os[n], ms);
    }
  }

  /** With non-negative initial limits no limit ever goes negative, so no method is charged beyond its initial limit. */
  lemma {:induction false} FinalWithinLimits(os: seq<Order>, ms: seq<PaymentMethod>)
    requires LimitsNonNegative(ms)
    ensures Final(os, ms).limits.Keys == Ids(ms) && Final(os, ms).spent.Keys == Ids(ms)
    ensures var l := Final(os, ms);
      && (forall id :: id in l.limits ==> l.limits[id] >= 0.0)
      && (forall id :: id in l.spent ==> l.spent[id] <= InitialLimits(ms)[id])
    decreases |os|
  {
    FinalConserves(os, ms);
    if os == [] {
      InitialLimitsNonNegative(ms);
    } else {
      var n := |os| - 1;
      FinalWithinLimits(os[..n], ms);
      FinalConserves(os[..n], ms);
      SettleFacts(Final(os[..n], ms), os[n], ms);
    }
  }

  /** With well-formed inputs every spent amount stays between 0 and the initial limit. */
  lemma {:induction false} FinalSpentBounds(os: seq<Order>, ms: seq<PaymentMethod>)
    requires WellFormedOrders(os) && WellFormedMethods(ms)
    ensures Final(os, ms).spent.Keys == Ids(ms)
    ensures var l := Final(os, ms);
      forall id :: id in l.spent ==> 0.0 <= l.spent[id] <= InitialLimits(ms)[id]
    decreases |os|
  {
    FinalWithinLimits(os, ms);
    if os != [] {
      var n := |os| - 1;
      assert WellFormedOrders(os[..n]) by {
        forall i | 0 <= i < n ensures os[..n][i].value >= 0.0 { assert os[..n][i] == os[i]; }
      }
      FinalSpentBounds(os[..n], ms);
      FinalConserves(os[..n], ms);
      SettleSpentGrows(Final(os[..n], ms), os[n], ms);
    }
  }
}
