/**
 * The data model of the discount calculator and the specification of one run
 * of its greedy allocator: which candidate payments an order has, which one
 * the allocator keeps, and how the registry's two ledgers change.
 *
 * Money is exact `real` arithmetic; the source computes in `double`.
 */
module DiscountModel {
  import opened Wrappers

  /** The identifier of the loyalty-points account. */
  const POINTS_ID: string := "PUNKTY"
  /** The least share of an order value that points must cover in a split payment. */
  const MIN_POINTS_PERCENTAGE: real := 0.10
  /** The discount, in percent, of a split payment, whatever card is paired. */
  const PARTIAL_POINTS_DISCOUNT: real := 10.0

  /** An order; `promotions` names the cards that grant it their discount. */
  datatype Order = Order(id: string, value: real, promotions: seq<string>)

  /** A payment method with its discount in percent and its spending limit. */
  datatype PaymentMethod = PaymentMethod(id: string, discount: real, limit: real)

  /** Amounts charged, per method id. */
  type Payments = map<string, real>

  /** One way to pay an order: the discount it earns and what it charges. */
  datatype Candidate = Candidate(discount: real, payments: Payments)

  /** The allocator's running choice: `bestDiscount` and `bestPayments` (None is null). */
  datatype Best = Best(discount: real, payments: Option<Payments>)

  /** Remaining limits and spent amounts, per method id. */
  datatype Ledger = Ledger(limits: map<string, real>, spent: map<string, real>)

  /** `getOrDefault(id, 0.0)`: an unknown id has no capacity. */
  function Get(m: map<string, real>, id: string): real
  {
    if id in m then m[id] else 0.0
  }

  function Max(a: real, b: real): real { if a >= b then a else b }

  function Min(a: real, b: real): real { if a <= b then a else b }

  // ---------------------------------------------------------------------------
  // Building the registry from the method list
  // ---------------------------------------------------------------------------

  /** The ids that occur in the method list. */
  function Ids(ms: seq<PaymentMethod>): set<string>
  {
    set i | 0 <= i < |ms| :: ms[i].id
  }

  lemma IdsSnoc(ms: seq<PaymentMethod>, m: PaymentMethod)
    ensures Ids(ms + [m]) == Ids(ms) + {m.id}
  {
    var s := ms + [m];
    forall id | id in Ids(s) ensures id in Ids(ms) + {m.id} {
      var i :| 0 <= i < |s| && s[i].id == id;
      if i < |ms| { assert ms[i].id == id; }
    }
    forall id | id in Ids(ms) ensures id in Ids(s) {
      var i :| 0 <= i < |ms| && ms[i].id == id;
      assert s[i].id == id;
    }
    assert s[|ms|].id == m.id;
  }

  /** The initial `limits` map: one `put` per list entry, so a later duplicate wins. */
  function InitialLimits(ms: seq<PaymentMethod>): (r: map<string, real>)
    ensures r.Keys == Ids(ms)
    decreases |ms|
  {
    if ms == [] then map[]
    else
      var n := |ms| - 1;
      IdsSnoc(ms[..n], ms[n]);
      assert ms[..n] + [ms[n]] == ms;
      InitialLimits(ms[..n])[ms[n].id := ms[n].limit]
  }

  /** The `methodMap`: one `put` per list entry, so a later duplicate wins. */
  function MethodMapOf(ms: seq<PaymentMethod>): (r: map<string, PaymentMethod>)
    ensures r.Keys == Ids(ms)
    ensures forall id :: id in r ==> r[id].id == id
    decreases |ms|
  {
    if ms == [] then map[]
    else
      var n := |ms| - 1;
      IdsSnoc(ms[..n], ms[n]);
      assert ms[..n] + [ms[n]] == ms;
      MethodMapOf(ms[..n])[ms[n].id := ms[n]]
  }

  /** The initial `spent` map: 0 for every id of the list. */
  function ZeroSpent(ms: seq<PaymentMethod>): (r: map<string, real>)
    ensures r.Keys == Ids(ms)
    ensures forall id :: id in r ==> r[id] == 0.0
    decreases |ms|
  {
    if ms == [] then map[]
    else
      var n := |ms| - 1;
      IdsSnoc(ms[..n], ms[n]);
      assert ms[..n] + [ms[n]] == ms;
      ZeroSpent(ms[..n])[ms[n].id := 0.0]
  }

  // ---------------------------------------------------------------------------
  // Candidate payments of one order
  // ---------------------------------------------------------------------------

  /** Full payment with points, if the points account exists and its limit covers the discounted value. */
  function FullPoints(value: real, limits: map<string, real>, mm: map<string, PaymentMethod>): Option<Candidate>
  {
    if POINTS_ID in mm && Get(limits, POINTS_ID) >= value * (1.0 - mm[POINTS_ID].discount / 100.0) then
      var discount := value * mm[POINTS_ID].discount / 100.0;
      Some(Candidate(discount, map[POINTS_ID := value - discount]))
    else
      None
  }

  /** Full payment with the card a promotion names, if it is a known non-points method whose limit suffices. */
  function FullCard(value: real, promo: string, limits: map<string, real>, mm: map<string, PaymentMethod>): Option<Candidate>
  {
    if promo in mm && mm[promo].id != POINTS_ID
       && Get(limits, mm[promo].id) >= value * (1.0 - mm[promo].discount / 100.0) then
      var discount := value * mm[promo].discount / 100.0;
      Some(Candidate(discount, map[mm[promo].id := value - discount]))
    else
      None
  }

  /** Whether split payments are tried at all: points exist and cover the minimum share. */
  predicate PartialGate(value: real, limits: map<string, real>, mm: map<string, PaymentMethod>)
  {
    POINTS_ID in mm && Get(limits, POINTS_ID) >= value * MIN_POINTS_PERCENTAGE
  }

  /** The points share of a split payment: the cost, clamped between the minimum share and the points limit. */
  function PointsUsed(value: real, limits: map<string, real>): real
  {
    var cost := value - value * PARTIAL_POINTS_DISCOUNT / 100.0;
    Max(value * MIN_POINTS_PERCENTAGE, Min(Get(limits, POINTS_ID), cost))
  }

  /** Split payment of points plus card `m`; a zero share is left out of the payment. */
  function Partial(value: real, m: PaymentMethod, limits: map<string, real>): Option<Candidate>
  {
    if m.id == POINTS_ID then None
    else
      var discount := value * PARTIAL_POINTS_DISCOUNT / 100.0;
      var cost := value - discount;
      var pointsUsed := PointsUsed(value, limits);
      var cardUsed := cost - pointsUsed;
      if cardUsed >= 0.0 && Get(limits, m.id) >= cardUsed then
        var pts: Payments := if pointsUsed > 0.0 then map[POINTS_ID := pointsUsed] else map[];
        Some(Candidate(discount, if cardUsed > 0.0 then pts[m.id := cardUsed] else pts))
      else
        None
  }

  function Listed(o: Option<Candidate>): seq<Candidate>
  {
    if o.Some? then [o.value] else []
  }

  /** The feasible full-card candidates, in promotion-list order. */
  function CardTier(value: real, promos: seq<string>, limits: map<string, real>,
                    mm: map<string, PaymentMethod>): seq<Candidate>
    decreases |promos|
  {
    if promos == [] then []
    else
      var n := |promos| - 1;
      CardTier(value, promos[..n], limits, mm) + Listed(FullCard(value, promos[n], limits, mm))
  }

  /** The feasible split candidates, in method-list order. */
  function PartialTier(value: real, ms: seq<PaymentMethod>, limits: map<string, real>): seq<Candidate>
    decreases |ms|
  {
    if ms == [] then []
    else
      var n := |ms| - 1;
      PartialTier(value, ms[..n], limits) + Listed(Partial(value, ms[n], limits))
  }

  function PointsTier(value: real, limits: map<string, real>, mm: map<string, PaymentMethod>): seq<Candidate>
  {
    Listed(FullPoints(value, limits, mm))
  }

  function SplitTier(value: real, ms: seq<PaymentMethod>, limits: map<string, real>,
                     mm: map<string, PaymentMethod>): seq<Candidate>
  {
    if PartialGate(value, limits, mm) then PartialTier(value, ms, limits) else []
  }

  /** Every feasible candidate of the order, in the allocator's evaluation order. */
  function Candidates(o: Order, limits: map<string, real>, mm: map<string, PaymentMethod>,
                      ms: seq<PaymentMethod>): seq<Candidate>
  {
    PointsTier(o.value, limits, mm) + CardTier(o.value, o.promotions, limits, mm)
    + SplitTier(o.value, ms, limits, mm)
  }

  // ---------------------------------------------------------------------------
  // Selection: keep a candidate only when its discount is strictly larger
  // ---------------------------------------------------------------------------

  const NoChoice: Best := Best(-1.0, None)

  function Chosen(c: Candidate): Best
  {
    Best(c.discount, Some(c.payments))
  }

  /** One comparison `discount > bestDiscount`. */
  function Step(b: Best, c: Candidate): Best
  {
    if c.discount > b.discount then Chosen(c) else b
  }

  /** The running choice after the given candidates, starting from `bestDiscount = -1`. */
  function Pick(cs: seq<Candidate>): Best
    decreases |cs|
  {
    if cs == [] then NoChoice else Step(Pick(cs[..|cs| - 1]), cs[|cs| - 1])
  }

  /** Candidate `i` has the largest discount, above the initial -1, and every earlier one is strictly smaller. */
  ghost predicate IsFirstMaximum(cs: seq<Candidate>, i: int)
  {
    && 0 <= i < |cs|
    && cs[i].discount > -1.0
    && (forall j :: 0 <= j < |cs| ==> cs[j].discount <= cs[i].discount)
    && (forall j :: 0 <= j < i ==> cs[j].discount < cs[i].discount)
  }

  // ---------------------------------------------------------------------------
  // Commit and the run over all orders
  // ---------------------------------------------------------------------------

  /** `merge(id, amount, Double::sum)` for every entry: an absent key is inserted. */
  function AddAll(m: map<string, real>, p: Payments): (r: map<string, real>)
  {
    map id | id in m.Keys + p.Keys :: Get(m, id) + Get(p, id)
  }

  function Negated(p: Payments): (r: Payments)
  {
    map id | id in p :: -p[id]
  }

  /** The allocator's choice for order `o` against the current ledger. */
  function Choice(l: Ledger, o: Order, ms: seq<PaymentMethod>): Best
  {
    Pick(Candidates(o, l.limits, MethodMapOf(ms), ms))
  }

  /** The ledger after order `o`: the chosen payments debited and credited, or nothing for an unpaid order. */
  function Settle(l: Ledger, o: Order, ms: seq<PaymentMethod>): Ledger
  {
    match Choice(l, o, ms).payments
    case None => l
    case Some(p) => Ledger(AddAll(l.limits, Negated(p)), AddAll(l.spent, p))
  }

  function InitialLedger(ms: seq<PaymentMethod>): Ledger
  {
    Ledger(InitialLimits(ms), ZeroSpent(ms))
  }

  /** The ledger after processing the orders in input order. */
  function Final(os: seq<Order>, ms: seq<PaymentMethod>): Ledger
    decreases |os|
  {
    if os == [] then InitialLedger(ms)
    else
      var n := |os| - 1;
      Settle(Final(os[..n], ms), os[n], ms)
  }

  /** The ids of the orders that could not be paid, in input order. */
  function Unpaid(os: seq<Order>, ms: seq<PaymentMethod>): seq<string>
    decreases |os|
  {
    if os == [] then []
    else
      var n := |os| - 1;
      Unpaid(os[..n], ms)
      + (if Choice(Final(os[..n], ms), os[n], ms).payments.None? then [os[n].id] else [])
  }
}
