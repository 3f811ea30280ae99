/**
 * The allocator as the source runs it: a registry whose `limits` and `spent`
 * maps are updated in place, order after order, by a selection over three
 * kinds of candidate payment followed by a commit of the winner.
 */
module DiscountCalc {
  import opened Wrappers
  import opened DiscountModel
  import opened DiscountProperties

  /** The state `computePayments` keeps across orders. */
  class Registry {
    const methods: seq<PaymentMethod>
    const methodMap: map<string, PaymentMethod>
    var limits: map<string, real>
    var spent: map<string, real>

    /** The registry was built from `methods`, and per id spent plus limit is the initial limit. */
    ghost predicate Valid()
      reads this
    {
      && methodMap == MethodMapOf(methods)
      && limits.Keys == Ids(methods)
      && spent.Keys == Ids(methods)
      && forall id :: id in limits ==> spent[id] + limits[id] == InitialLimits(methods)[id]
    }

    /** Fills `limits` and `methodMap` entry by entry, then sets every spent amount to 0. */
    constructor (methods: seq<PaymentMethod>)
      ensures Valid() && this.methods == methods
      ensures limits == InitialLimits(methods) && spent == ZeroSpent(methods)
    {
      var lim: map<string, real> := map[];
      var mm: map<string, PaymentMethod> := map[];
      for i := 0 to |methods|
        invariant lim == InitialLimits(methods[..i])
        invariant mm == MethodMapOf(methods[..i])
      {
        assert methods[..i + 1][..i] == methods[..i];
        lim := lim[methods[i].id := methods[i].limit];
        mm := mm[methods[i].id := methods[i]];
      }
      var sp: map<string, real> := map[];
      for i := 0 to |methods|
        invariant sp == ZeroSpent(methods[..i])
      {
        assert methods[..i + 1][..i] == methods[..i];
        sp := sp[methods[i].id := 0.0];
      }
      assert methods[..|methods|] == methods;
      this.methods := methods;
      methodMap := mm;
      limits := lim;
      spent := sp;
    }

    /**
     * Evaluates full points, then each promoted card, then each split with
     * points, keeping a candidate only when its discount is strictly larger
     * than the best so far.
     */
    method SelectBest(o: Order) returns (best: Best)
      requires Valid()
      ensures best == Pick(Candidates(o, limits, methodMap, methods))
    {
      var value := o.value;
      var bestDiscount := -1.0;
      var bestPayments: Option<Payments> := None;

      var full := FullPoints(value, limits, methodMap);
      if full.Some? && full.value.discount > bestDiscount {
        bestDiscount, bestPayments := full.value.discount, Some(full.value.payments);
      }
      ghost var pts := PointsTier(value, limits, methodMap);
      assert Best(bestDiscount, bestPayments) == Pick(pts) by {
        PickExtend([], full);
        assert [] + pts == pts;
      }

      best := PromotionPass(value, o.promotions, pts, Best(bestDiscount, bestPayments));
      ghost var before := pts + CardTier(value, o.promotions, limits, methodMap);
      if PartialGate(value, limits, methodMap) {
        best := SplitPass(value, before, best);
      } else {
        assert before + [] == before;
      }
      assert Candidates(o, limits, methodMap, methods) == before + SplitTier(value, methods, limits, methodMap);
    }

    /** The loop over the order's promotions: full payment with each promoted card, in list order. */
    method PromotionPass(value: real, promos: seq<string>, ghost prior: seq<Candidate>, start: Best)
      returns (best: Best)
      requires start == Pick(prior)
      ensures best == Pick(prior + CardTier(value, promos, limits, methodMap))
    {
      var bestDiscount, bestPayments := start.discount, start.payments;
      assert CardTier(value, promos[..0], limits, methodMap) == [];
      assert prior + [] == prior;
      for i := 0 to |promos|
        invariant Best(bestDiscount, bestPayments) == Pick(prior + CardTier(value, promos[..i], limits, methodMap))
      {
        var card := FullCard(value, promos[i], limits, methodMap);
        if card.Some? && card.value.discount > bestDiscount {
          bestDiscount, bestPayments := card.value.discount, Some(card.value.payments);
        }
        assert promos[..i + 1][..i] == promos[..i];
        ghost var prefix := CardTier(value, promos[..i], limits, methodMap);
        assert CardTier(value, promos[..i + 1], limits, methodMap) == prefix + Listed(card);
        assert prior + (prefix + Listed(card)) == (prior + prefix) + Listed(card);
        PickExtend(prior + prefix, card);
      }
      assert promos[..|promos|] == promos;
      best := Best(bestDiscount, bestPayments);
    }

    /** The loop over the method list: points plus each non-points method at the fixed 10% discount. */
    method SplitPass(value: real, ghost prior: seq<Candidate>, start: Best) returns (best: Best)
      requires start == Pick(prior)
      ensures best == Pick(prior + PartialTier(value, methods, limits))
    {
      var bestDiscount, bestPayments := start.discount, start.payments;
      assert PartialTier(value, methods[..0], limits) == [];
      assert prior + [] == prior;
      for j := 0 to |methods|
        invariant Best(bestDiscount, bestPayments) == Pick(prior + PartialTier(value, methods[..j], limits))
      {
        var split := Partial(value, methods[j], limits);
        if split.Some? && split.value.discount > bestDiscount {
          bestDiscount, bestPayments := split.value.discount, Some(split.value.payments);
        }
        assert methods[..j + 1][..j] == methods[..j];
        ghost var prefix := PartialTier(value, methods[..j], limits);
        assert PartialTier(value, methods[..j + 1], limits) == prefix + Listed(split);
        assert prior + (prefix + Listed(split)) == (prior + prefix) + Listed(split);
        PickExtend(prior + prefix, split);
      }
      assert methods[..|methods|] == methods;
      best := Best(bestDiscount, bestPayments);
    }

    /** Adds each amount to `spent` and subtracts it from `limits`, entry by entry, as `merge` does. */
    method Commit(payments: Payments)
      modifies this
      ensures spent == AddAll(old(spent), payments)
      ensures limits == AddAll(old(limits), Negated(payments))
    {
      var sp, lim, todo := spent, limits, payments.Keys;
      while todo != {}
        invariant todo <= payments.Keys
        invariant forall id :: id in sp <==> id in old(spent) || (id in payments && id !in todo)
        invariant forall id :: id in lim <==> id in old(limits) || (id in payments && id !in todo)
        invariant forall id :: id in sp ==> sp[id] == Get(old(spent), id) + Charged(payments, todo, id)
        invariant forall id :: id in lim ==> lim[id] == Get(old(limits), id) - Charged(payments, todo, id)
        decreases todo
      {
        var id :| id in todo;
        var amount := payments[id];
        sp := sp[id := Get(sp, id) + amount];
        lim := lim[id := Get(lim, id) - amount];
        todo := todo - {id};
      }
      AddAllPointwise(old(spent), payments, sp);
      AddAllPointwise(old(limits), Negated(payments), lim);
      spent, limits := sp, lim;
    }

    /** What the commit has charged `id` so far: its amount once it has left `todo`. */
    static ghost function Charged(payments: Payments, todo: set<string>, id: string): real
    {
      if id in payments && id !in todo then payments[id] else 0.0
    }

    /** Pays order `o` with the best candidate, or leaves the registry as it is when there is none. */
    method Pay(o: Order) returns (paid: bool)
      requires Valid()
      modifies this
      ensures Valid()
      ensures Ledger(limits, spent) == Settle(old(Ledger(limits, spent)), o, methods)
      ensures paid == Choice(old(Ledger(limits, spent)), o, methods).payments.Some?
      ensures !paid ==> limits == old(limits) && spent == old(spent)
    {
      ghost var l := Ledger(limits, spent);
      var best := SelectBest(o);
      SettleFacts(l, o, methods);
      if best.payments.Some? {
        Commit(best.payments.value);
        paid := true;
      } else {
        paid := false;
      }
    }
  }

  /**
   * Processes the orders in input order against one registry and returns each
   * listed method's spent amount, with the ids of the orders it could not pay.
   */
  method ComputePayments(orders: seq<Order>, methods: seq<PaymentMethod>)
    returns (spent: map<string, real>, unpaid: seq<string>)
    ensures spent == Final(orders, methods).spent && unpaid == Unpaid(orders, methods)
    ensures spent.Keys == Ids(methods) && Final(orders, methods).limits.Keys == Ids(methods)
    ensures forall id :: id in spent ==>
      spent[id] + Final(orders, methods).limits[id] == InitialLimits(methods)[id]
    ensures WellFormedOrders(orders) && WellFormedMethods(methods) ==>
      forall id :: id in spent ==> 0.0 <= spent[id] <= InitialLimits(methods)[id]
  {
    var registry := new Registry(methods);
    unpaid := [];
    for i := 0 to |orders|
      invariant registry.Valid() && registry.methods == methods
      invariant Ledger(registry.limits, registry.spent) == Final(orders[..i], methods)
      invariant unpaid == Unpaid(orders[..i], methods)
    {
      assert orders[..i + 1][..i] == orders[..i];
      var paid := registry.Pay(orders[i]);
      if !paid {
        unpaid := unpaid + [orders[i].id];
      }
    }
    assert orders[..|orders|] == orders;
    spent := registry.spent;
    FinalConserves(orders, methods);
    if WellFormedOrders(orders) && WellFormedMethods(methods) {
      FinalSpentBounds(orders, methods);
    }
  }
}
