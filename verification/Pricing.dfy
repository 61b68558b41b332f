/** Landed-cost pricing of one sell against one buy. */
module Pricing {
  import opened Options
  import opened FastPrices
  import opened Words
  import opened Orders
  import opened Ordering

  datatype ZoneFees = ZoneFees(wheeling: I64, loss: I64)

  datatype Candidate = Candidate(
    sellIdx: nat,
    landed: I64,
    wheeling: I64,
    loss: I64,
    lossCost: I64,
    sortPrice: I64,
    sortTime: I64,
    sortId: Uuid)

  /** Fill order of candidates: landed cost, raw ask, arrival, id. */
  function CandidateKey(c: Candidate): Key { Key(c.landed, c.sortPrice, c.sortTime, c.sortId) }

  /** Loss charged on an ask; a loss factor below 1.0 charges nothing. */
  function LossCost(ask: I64, loss: I64): I64 {
    NarrowOrMax(TruncDiv(ask * Max(SaturatingSub(loss, FACTOR), 0), FACTOR))
  }

  function LandedCost(ask: I64, fees: ZoneFees, multiplier: I64): I64 {
    var base := SaturatingAdd(SaturatingAdd(ask, Max(fees.wheeling, 0)), LossCost(ask, fees.loss));
    if multiplier == FACTOR then base
    else
      match CheckedMul(base, multiplier)
      case Some(scaled) => scaled
      case None => I64_MAX
  }

  /** A sell priced against a buy, or `None` when the trade is not viable: a self-trade, an
      ask above the bid, a flow the grid refuses, or a landed cost above the bid. */
  function PricedCandidate(buy: FastOrder, need: int, idx: nat, sell: FastOrder, topology: Topology,
                           fees: ZoneFees, multiplier: I64): Option<Candidate>
  {
    var landed := LandedCost(sell.price, fees, multiplier);
    if || buy.userId == sell.userId
       || sell.price > buy.price
       || !topology.canAccommodate(sell.zone, buy.zone, Min(need, sell.Remaining()))
       || landed > buy.price
    then None
    else Some(Candidate(idx, landed, Max(fees.wheeling, 0), fees.loss, LossCost(sell.price, fees.loss),
                        sell.price, sell.createdAt, sell.id))
  }

  /** Loss is the ask's share above 1.0, rounded toward zero; a factor below 1.0 costs nothing,
      and a share out of range the maximum. */
  lemma LossCostIs(ask: I64, loss: I64)
    ensures var share := ask * (if loss > FACTOR then loss - FACTOR else 0);
      if exists q: I64 :: Truncates(q, share, FACTOR) then Truncates(LossCost(ask, loss), share, FACTOR)
      else LossCost(ask, loss) == I64_MAX
  {
    var extra := Max(SaturatingSub(loss, FACTOR), 0);
    assert extra == if loss > FACTOR then loss - FACTOR else 0;
    TruncDivTruncates(ask * extra, FACTOR);
    if q: I64 :| Truncates(q, ask * extra, FACTOR) {
      TruncatesOnce(q, TruncDiv(ask * extra, FACTOR), ask * extra);
    }
  }

  lemma TruncatesOnce(p: int, q: int, n: int)
    requires Truncates(p, n, FACTOR) && Truncates(q, n, FACTOR)
    ensures p == q
  {
  }

  /** The landed cost of a non-negative ask: ask, wheeling (none when negative) and loss, capped
      at the maximum; then scaled by a multiplier other than 1.0, rounded toward zero, and the
      maximum when that is out of range. */
  lemma LandedCostIs(ask: I64, fees: ZoneFees, multiplier: I64)
    requires 0 <= ask && multiplier > 0
    ensures var sum := ask + (if fees.wheeling > 0 then fees.wheeling else 0) + LossCost(ask, fees.loss);
      var base := if sum > I64_MAX then I64_MAX else sum;
      var landed := LandedCost(ask, fees, multiplier);
      && 0 <= LossCost(ask, fees.loss)
      && (multiplier == FACTOR ==> landed == base)
      && (multiplier != FACTOR ==>
            if base * multiplier < (I64_MAX + 1) * FACTOR then Truncates(landed, base * multiplier, FACTOR) else landed == I64_MAX)
  {
    var base := SaturatingAdd(SaturatingAdd(ask, Max(fees.wheeling, 0)), LossCost(ask, fees.loss));
    LossIsNonNegative(ask, fees.loss);
    hide LossCost, TruncDiv, Truncates;
    assert base >= 0;
    ScaledIs(base, multiplier);
    hide CheckedMul;
  }

  lemma LossIsNonNegative(ask: I64, loss: I64)
    requires 0 <= ask
    ensures 0 <= LossCost(ask, loss)
  {
    MulDivMonotone(0, ask, Max(SaturatingSub(loss, FACTOR), 0));
  }

  lemma ScaledIs(base: I64, multiplier: I64)
    requires 0 <= base && multiplier > 0
    ensures if base * multiplier < (I64_MAX + 1) * FACTOR
      then CheckedMul(base, multiplier).Some? && Truncates(CheckedMul(base, multiplier).value, base * multiplier, FACTOR)
      else CheckedMul(base, multiplier) == None
  {
    assert base * multiplier >= 0;
    NarrowsExactly(base * multiplier);
    hide TruncDiv, Truncates;
  }

  lemma NarrowsExactly(n: int)
    requires 0 <= n
    ensures 0 <= TruncDiv(n, FACTOR) && (TruncDiv(n, FACTOR) <= I64_MAX <==> n < (I64_MAX + 1) * FACTOR)
    ensures Truncates(TruncDiv(n, FACTOR), n, FACTOR)
  {
    TruncDivTruncates(n, FACTOR);
  }

  /** Within one zone a dearer ask never lands cheaper, through truncation, saturation and a
      positive multiplier. */
  lemma LandedMonotone(ask1: I64, ask2: I64, fees: ZoneFees, multiplier: I64)
    requires 0 <= ask1 <= ask2 && multiplier > 0
    ensures LandedCost(ask1, fees, multiplier) <= LandedCost(ask2, fees, multiplier)
  {
    var extra := Max(SaturatingSub(fees.loss, FACTOR), 0);
    MulDivMonotone(ask1, ask2, extra);
    var w := Max(fees.wheeling, 0);
    var base1 := SaturatingAdd(SaturatingAdd(ask1, w), LossCost(ask1, fees.loss));
    var base2 := SaturatingAdd(SaturatingAdd(ask2, w), LossCost(ask2, fees.loss));
    assert 0 <= base1 <= base2;
    MulDivMonotone(base1, base2, multiplier);
  }

  /** An ask below zero can land dearer than a larger one: a loss charge pushes it further down,
      and a large multiplier then overflows, which the engine answers with the maximum. */
  lemma LandedDisordersNegatives(ask: I64) returns (fees: ZoneFees, multiplier: I64)
    requires ask < 0
    ensures multiplier > 0 && LandedCost(ask, fees, multiplier) > LandedCost(0, fees, multiplier)
  {
    multiplier := I64_MAX;
    fees := ZoneFees(0, if ask <= -2 * FACTOR then FACTOR else FACTOR + 2 * FACTOR * FACTOR);
    var extra := fees.loss - FACTOR;
    assert SaturatingSub(fees.loss, FACTOR) == extra;
    assert TruncDiv(ask * extra, FACTOR) == ask * (extra / FACTOR);
    var base := SaturatingAdd(SaturatingAdd(ask, 0), LossCost(ask, fees.loss));
    assert base <= -2 * FACTOR;
    OverflowsBelow(base);
    assert LossCost(0, fees.loss) == 0;
  }

  lemma OverflowsBelow(base: I64)
    requires base <= -2 * FACTOR
    ensures CheckedMul(base, I64_MAX) == None
  {
    assert base * I64_MAX <= -2 * FACTOR * I64_MAX;
  }

  /** Exactly when landed cost is monotone from an ask on, whatever the fees and the positive
      multiplier: when the ask is not negative. */
  lemma LandedMonotoneExactly(ask: I64)
    ensures (forall dearer: I64, fees: ZoneFees, multiplier: I64 :: ask <= dearer && multiplier > 0 ==>
              LandedCost(ask, fees, multiplier) <= LandedCost(dearer, fees, multiplier))
      <==> 0 <= ask
  {
    if 0 <= ask {
      forall dearer: I64, fees: ZoneFees, multiplier: I64 | ask <= dearer && multiplier > 0
        ensures LandedCost(ask, fees, multiplier) <= LandedCost(dearer, fees, multiplier)
      {
        LandedMonotone(ask, dearer, fees, multiplier);
      }
    } else {
      var fees, multiplier := LandedDisordersNegatives(ask);
    }
  }

  /** At a multiplier of 1.0 or more the landed cost only adds to a non-negative ask, which is
      what the chain's `price >= ask` guard needs. */
  lemma LandedCoversAsk(ask: I64, fees: ZoneFees, multiplier: I64)
    requires 0 <= ask && multiplier >= FACTOR
    ensures ask <= LandedCost(ask, fees, multiplier)
  {
    MulDivMonotone(0, ask, Max(SaturatingSub(fees.loss, FACTOR), 0));
    var base := SaturatingAdd(SaturatingAdd(ask, Max(fees.wheeling, 0)), LossCost(ask, fees.loss));
    assert ask <= base;
    hide LossCost, SaturatingAdd;
    ScalesUp(base, multiplier);
  }

  lemma ScalesUp(base: I64, multiplier: I64)
    requires 0 <= base && multiplier >= FACTOR
    ensures base <= TruncDiv(base * multiplier, FACTOR)
  {
    assert base * (multiplier - FACTOR) >= 0;
    assert base * multiplier >= base * FACTOR;
  }

  /** Exactly which positive multipliers settle no non-negative ask under itself: those of 1.0
      and more. */
  lemma LandedCoversAskExactly(multiplier: I64)
    requires multiplier > 0
    ensures (forall ask: I64, fees: ZoneFees :: 0 <= ask ==> ask <= LandedCost(ask, fees, multiplier))
      <==> multiplier >= FACTOR
  {
    if multiplier >= FACTOR {
      forall ask: I64, fees: ZoneFees | 0 <= ask ensures ask <= LandedCost(ask, fees, multiplier) {
        LandedCoversAsk(ask, fees, multiplier);
      }
    } else {
      SubUnitMultiplierUndercutsAsk(multiplier);
    }
  }

  /** Every multiplier below 1.0 settles some ask under itself: 1.0 with no fees lands at the
      multiplier. */
  lemma SubUnitMultiplierUndercutsAsk(multiplier: I64)
    requires 0 < multiplier < FACTOR
    ensures LandedCost(FACTOR, ZoneFees(0, FACTOR), multiplier) == multiplier < FACTOR
  {
    assert LossCost(FACTOR, FACTOR) == 0;
    assert TruncDiv(FACTOR * multiplier, FACTOR) == multiplier;
  }
}
