/** Money across modules: what admission promises, against what the two engines can output. */
module Money {
  import opened Options
  import opened FastPrices
  import opened Words
  import opened Orders
  import opened Pricing
  import opened CdaSpec
  import opened CdaRefinement
  import opened CdaSafety
  import opened AuctionSpec
  import opened AuctionSafety
  import opened Arithmetic
  import opened Charges
  import opened OrderPolicy

  /** The production topology: every flow admitted, every link priced at the billed rates. */
  function GridTopology(rates: ChargeRates): Topology {
    Topology((from, to, amount) => true,
             (from, to) => FromDecimal(WheelingPerKwh(rates)),
             (from, to) => FromDecimal(LossFactor(rates)))
  }

  // ---------- End-to-end settleability ----------

  /** Some price the engines can represent fits the cap; the dearest one does if any does. */
  predicate SomePriceFits(rates: ChargeRates) {
    rates.wheelingRatePerKwh * WHEELING_UNITS <= I64_MAX * (MAX_NETWORK_CHARGE_BPS - rates.lossBps)
  }

  predicate Admitted(ask: int, marketMinimum: int, rates: ChargeRates) {
    CheckSellPriceFloor(Sell, ask, marketMinimum, SettleableFloor(rates)).Ok?
  }

  lemma MicrosConvert(micros: int)
    requires micros >= 0
    ensures FromDecimal(micros * QUANTA_PER_MICRO) == Min(micros * 1000, I64_MAX)
  {
    assert micros * QUANTA_PER_MICRO == micros * 1000 * QUANTA_PER_RAW;
    assert micros * 1000 * QUANTA_PER_RAW / QUANTA_PER_RAW == micros * 1000;
    assert micros * 1000 * QUANTA_PER_RAW % QUANTA_PER_RAW == 0;
  }

  /** An admitted ask is still at the floor once converted, or saturated. */
  lemma AdmittedAskConverts(ask: int, marketMinimum: int, rates: ChargeRates)
    requires rates.wheelingRatePerKwh > 0 && Admitted(ask, marketMinimum, rates)
    ensures MinSettleablePrice(rates).Some? && 0 < MinSettleablePrice(rates).value
    ensures Min(MinSettleablePrice(rates).value * 1000, I64_MAX) <= FromDecimal(ask)
  {
    var floor := MinSettleablePrice(rates).value;
    CeilDivLeast(rates.wheelingRatePerKwh * BPS, MAX_NETWORK_CHARGE_BPS - rates.lossBps, 0);
    MicrosConvert(floor);
    FromDecimalMonotone(floor * QUANTA_PER_MICRO, ask);
  }

  /** With a positive wheeling rate, an admitted ask settles at every price not below it, for
      every size. */
  lemma AdmittedAskSettles(ask: int, marketMinimum: int, settle: I64, kwh: int, rates: ChargeRates)
    requires rates.wheelingRatePerKwh > 0 && kwh > 0 && SomePriceFits(rates)
    requires Admitted(ask, marketMinimum, rates) && FromDecimal(ask) <= settle
    ensures FitsCap(kwh * settle, kwh, rates)
  {
    AdmittedAskConverts(ask, marketMinimum, rates);
    var floor := MinSettleablePrice(rates).value;
    if floor * 1000 <= I64_MAX {
      AboveFloorFits(settle, kwh, rates);
    } else {
      CapIsAPriceCondition(settle, kwh, rates);
    }
  }

  /** Admission is exact: with a positive wheeling rate a six-decimal ask is admitted if and only if
      a trade at that very price settles, and the market minimum allows it. */
  lemma AdmittedExactly(micros: int, kwh: int, marketMinimum: int, rates: ChargeRates)
    requires rates.wheelingRatePerKwh > 0 && kwh > 0 && micros >= 0
    ensures var ask := micros * 10_000_000_000_000_000_000_000;
      Admitted(ask, marketMinimum, rates) <==> FitsCap(kwh * (micros * 1000), kwh, rates) && marketMinimum <= ask
  {
    FloorIsLeast(micros, kwh, rates);
    hide FitsCap, MinSettleablePrice;
  }

  /** The condition is exact: when it fails, no match of either engine can ever settle, although
      the floor may still be a price and admit asks. */
  lemma NoPriceFits(settle: I64, kwh: int, rates: ChargeRates)
    requires kwh > 0 && rates.wheelingRatePerKwh > 0 && settle >= 0
    ensures FitsCap(kwh * settle, kwh, rates) ==> SomePriceFits(rates)
    ensures FitsCap(kwh * I64_MAX, kwh, rates) <==> SomePriceFits(rates)
  {
    CapIsAPriceCondition(settle, kwh, rates);
    CapIsAPriceCondition(I64_MAX, kwh, rates);
    hide FitsCap;
    var h := MAX_NETWORK_CHARGE_BPS - rates.lossBps;
    if h >= 0 {
      ScaleUp(settle, I64_MAX, h);
    } else {
      ScaleUp(0, settle, -h);
    }
  }

  lemma ScaleUp(a: int, b: int, k: int)
    requires a <= b && 0 <= k
    ensures a * k <= b * k && (0 <= b ==> b * -k <= 0)
  {
    assert (b - a) * k >= 0;
    if 0 <= b { assert b * k >= 0; }
  }

  /** The resting asks all passed the floor check. */
  ghost predicate AllAdmitted(sells: seq<FastOrder>, asks: seq<int>, marketMinimum: int, rates: ChargeRates) {
    |asks| == |sells|
    && forall j :: 0 <= j < |sells| ==> sells[j].price == FromDecimal(asks[j]) && Admitted(asks[j], marketMinimum, rates)
  }

  lemma FairMatchSettles(x: MatchResult, buys: seq<FastOrder>, sells: seq<FastOrder>, metadata: seq<OrderMetadata>,
                         asks: seq<int>, marketMinimum: int, rates: ChargeRates)
    requires rates.wheelingRatePerKwh > 0 && SomePriceFits(rates)
    requires AllAdmitted(sells, asks, marketMinimum, rates) && FairMatch(x, buys, sells, metadata)
    ensures FitsCap(x.matchAmount * x.settlePrice, x.matchAmount, rates)
  {
    var j :| 0 <= j < |sells| && sells[j].id == x.sellOrderId && sells[j].price == x.sellerPrice;
    AdmittedAskSettles(asks[j], marketMinimum, x.settlePrice, x.matchAmount, rates);
  }

  /** No match of a continuous cycle over admitted asks is ever refused for its charges,
      whatever the topology. */
  lemma CdaMatchesSettle(buys: seq<FastOrder>, sells: seq<FastOrder>, env: Env, asks: seq<int>, marketMinimum: int,
                         rates: ChargeRates)
    requires UniqueIds(buys) && UniqueIds(sells) && Runnable(RankBuys(buys), env) && GuardMultiplier(env.multiplier) >= FACTOR
    requires rates.wheelingRatePerKwh > 0 && SomePriceFits(rates) && AllAdmitted(sells, asks, marketMinimum, rates)
    ensures forall x :: x in CycleOutcome(buys, sells, env, false).matches ==>
      FitsCap(x.matchAmount * x.settlePrice, x.matchAmount, rates)
  {
    hide FitsCap, MinSettleablePrice, SomePriceFits, CycleOutcome, RankBuys, FromDecimal;
    forall j | 0 <= j < |sells| ensures 0 <= sells[j].price {
      AdmittedAskConverts(asks[j], marketMinimum, rates);
    }
    CdaMatchesFair(buys, sells, env);
    forall x | x in CycleOutcome(buys, sells, env, false).matches
      ensures FitsCap(x.matchAmount * x.settlePrice, x.matchAmount, rates)
    {
      FairMatchSettles(x, buys, sells, env.buyMetadata, asks, marketMinimum, rates);
    }
  }

  /** Nor any match of an auction cycle over them. */
  lemma AuctionMatchesSettle(buys: seq<FastOrder>, sells: seq<FastOrder>, env: AuctionEnv, asks: seq<int>,
                             marketMinimum: int, rates: ChargeRates)
    requires Auctionable(buys, env) && UniqueIds(buys) && UniqueIds(sells)
    requires rates.wheelingRatePerKwh > 0 && SomePriceFits(rates) && AllAdmitted(sells, asks, marketMinimum, rates)
    ensures forall x :: x in Flatten(AuctionOutcome(buys, sells, env).zones) ==>
      FitsCap(x.matchAmount * x.settlePrice, x.matchAmount, rates)
  {
    hide FitsCap, MinSettleablePrice, SomePriceFits, AuctionOutcome;
    forall x | x in Flatten(AuctionOutcome(buys, sells, env).zones)
      ensures FitsCap(x.matchAmount * x.settlePrice, x.matchAmount, rates)
    {
      AuctionMatchesFair(buys, sells, env, x);
      FairMatchSettles(x, buys, sells, env.metadata, asks, marketMinimum, rates);
    }
  }

  // ---------- Pass-through ----------

  /** Loss per kWh the engine prices, before saturation: the billed share of the ask, truncated. */
  function PricedLoss(ask: int, rates: ChargeRates): int { ask * rates.lossBps / BPS }

  lemma BilledFees(rates: ChargeRates)
    ensures FromDecimal(WheelingPerKwh(rates)) == Min(rates.wheelingRatePerKwh * 1000, I64_MAX)
    ensures FromDecimal(LossFactor(rates)) == FACTOR + rates.lossBps * 100_000
  {
    MicrosConvert(rates.wheelingRatePerKwh);
    var raw := (BPS + rates.lossBps) * 100_000;
    assert LossFactor(rates) == raw * QUANTA_PER_RAW;
    assert raw * QUANTA_PER_RAW / QUANTA_PER_RAW == raw && raw * QUANTA_PER_RAW % QUANTA_PER_RAW == 0;
  }

  lemma ScaleDown(ask: int, loss: int)
    requires 0 <= ask && 0 <= loss
    ensures TruncDiv(ask * (loss * 100_000), FACTOR) == ask * loss / BPS
  {
    var x := ask * loss;
    assert ask * (loss * 100_000) == x * 100_000;
    assert x >= 0;
  }

  /** A landed cost below the maximum saturated nowhere. */
  lemma LandedUnsaturated(ask: I64, fees: ZoneFees)
    requires 0 <= ask && 0 <= fees.wheeling && FACTOR <= fees.loss && LandedCost(ask, fees, FACTOR) < I64_MAX
    requires 0 <= TruncDiv(ask * (fees.loss - FACTOR), FACTOR)
    ensures fees.wheeling < I64_MAX
    ensures LandedCost(ask, fees, FACTOR) == ask + fees.wheeling + TruncDiv(ask * (fees.loss - FACTOR), FACTOR)
  {
    hide TruncDiv;
    assert SaturatingSub(fees.loss, FACTOR) == fees.loss - FACTOR;
  }

  /** The landed cost at the billed rates, when it did not saturate. */
  lemma LandedAtBilledRates(ask: I64, rates: ChargeRates, from: Zone, to: Zone)
    requires 0 <= ask
    requires LandedCost(ask, FeesBetween(GridTopology(rates), from, to), FACTOR) < I64_MAX
    ensures LandedCost(ask, FeesBetween(GridTopology(rates), from, to), FACTOR)
      == ask + rates.wheelingRatePerKwh * 1000 + PricedLoss(ask, rates)
  {
    hide FromDecimal, TruncDiv, LandedCost, WheelingPerKwh, LossFactor;
    var fees := FeesBetween(GridTopology(rates), from, to);
    BilledFees(rates);
    ScaleDown(ask, rates.lossBps);
    assert ask * rates.lossBps >= 0;
    LandedUnsaturated(ask, fees);
  }

  /** What the truncation of the priced loss, and charging loss on the charges, leave with the
      seller on top of (or, with the fee, below) the bare ask: in 1e-41. */
  function Residual(ask: int, kwh: int, rates: ChargeRates): int {
    kwh * (rates.lossBps * (rates.wheelingRatePerKwh * 1000 + PricedLoss(ask, rates)) + ask * rates.lossBps % BPS)
  }

  /** The seller's net is exactly the ask, less the fee on the gross, less the residual. */
  lemma NetIsAskLessResidual(ask: int, kwh: int, rates: ChargeRates)
    requires 0 <= ask && 0 < kwh
    ensures var landed := ask + rates.wheelingRatePerKwh * 1000 + PricedLoss(ask, rates);
      var c := ComputeCharges(kwh * landed, kwh, rates);
      c.net == kwh * ask * BPS - kwh * landed * rates.feeBps - Residual(ask, kwh, rates)
  {
    var l: int, w: int, t := rates.lossBps, rates.wheelingRatePerKwh, PricedLoss(ask, rates);
    var landed := ask + w * 1000 + t;
    var m := ask * l % BPS;
    assert BPS * t == ask * l - m;
    // Per kWh: landed*BPS - w*10^7 - landed*l == ask*BPS - (l*(1000w + t) + m).
    var a := landed * BPS - w * WHEELING_UNITS - landed * l;
    assert landed * l == ask * l + l * (w * 1000 + t) by { DistributeSum(l, ask, w * 1000 + t); }
    assert a == ask * BPS - (l * (w * 1000 + t) + m);
    PerKwh(kwh, landed, w * WHEELING_UNITS, l);
    PerKwhAsk(kwh, ask, l * (w * 1000 + t) + m);
  }

  lemma DistributeSum(l: int, a: int, b: int)
    ensures (a + b) * l == a * l + l * b
  {
  }

  lemma PerKwh(q: int, landed: int, w: int, l: int)
    ensures q * landed * BPS - q * w - q * landed * l == q * (landed * BPS - w - landed * l)
  {
    MulAssoc(q, landed, BPS);
    MulAssoc(q, landed, l);
    Distribute(q, landed * BPS - w, -(landed * l));
    Distribute(q, landed * BPS, -w);
  }

  lemma PerKwhAsk(q: int, ask: int, r: int)
    ensures q * (ask * BPS - r) == q * ask * BPS - q * r
  {
    MulAssoc(q, ask, BPS);
    Distribute(q, ask * BPS, -r);
  }

  /** The residual is never negative, and below q * (1e-9 + l*(w + l*ask)), with l the loss
      fraction and w the wheeling per kWh (here times 1e4, in 1e-41). */
  lemma ResidualBound(ask: int, kwh: int, rates: ChargeRates)
    requires 0 <= ask && 0 < kwh
    ensures var l: int := rates.lossBps;
      && 0 <= Residual(ask, kwh, rates)
      && Residual(ask, kwh, rates) * BPS < kwh * (100_000_000 + l * (rates.wheelingRatePerKwh * WHEELING_UNITS + l * ask))
  {
    var l: int, w: int, t := rates.lossBps, rates.wheelingRatePerKwh, PricedLoss(ask, rates);
    var m := ask * l % BPS;
    assert ask * l >= 0;
    assert BPS * t == ask * l - m && t >= 0;
    var r := l * (w * 1000 + t) + m;
    assert r >= 0 by { assert l * (w * 1000 + t) >= 0; }
    assert kwh * r >= 0;
    var bound := 100_000_000 + l * (w * WHEELING_UNITS + l * ask);
    assert r * BPS < bound by {
      assert l * (w * 1000 + t) * BPS == l * (w * WHEELING_UNITS + t * BPS);
      assert l * (w * WHEELING_UNITS + t * BPS) <= l * (w * WHEELING_UNITS + l * ask) by {
        CancelLoss(l, w * WHEELING_UNITS + t * BPS, w * WHEELING_UNITS + l * ask);
      }
    }
    assert kwh * r * BPS == kwh * (r * BPS) by { MulAssoc(kwh, r, BPS); }
    CancelFactor(kwh, bound, r * BPS);
  }

  lemma CancelLoss(l: int, x: int, y: int)
    requires 0 <= l && x <= y
    ensures l * x <= l * y
  {
    assert l * (y - x) >= 0;
  }

  lemma MatchPassesThrough(x: MatchResult, buy: FastOrder, sell: FastOrder, env: Env, rates: ChargeRates)
    requires IsMatchOf(x, buy, sell, env) && env.multiplier == FACTOR && env.topology == GridTopology(rates)
    requires 0 <= sell.price && x.settlePrice < I64_MAX
    ensures PassesThrough(x, rates)
  {
    hide LandedCost, GridTopology, Residual, PricedLoss, ComputeCharges;
    LandedAtBilledRates(sell.price, rates, sell.zone, buy.zone);
    NetIsAskLessResidual(sell.price, x.matchAmount, rates);
    ResidualBound(sell.price, x.matchAmount, rates);
  }

  /** The seller nets the ask less the fee, less a residual below q * (1e-9 + l*(w + l*ask)). */
  ghost predicate PassesThrough(x: MatchResult, rates: ChargeRates) {
    var c := ComputeCharges(x.matchAmount * x.settlePrice, x.matchAmount, rates);
    var l: int := rates.lossBps;
    var residual := x.matchAmount * x.sellerPrice * BPS - x.matchAmount * x.settlePrice * rates.feeBps - c.net;
    && 0 <= residual
    && residual * BPS < x.matchAmount * (100_000_000 + l * (rates.wheelingRatePerKwh * WHEELING_UNITS + l * x.sellerPrice))
  }

  /** Charges really are passed through: for every match of a continuous cycle priced at the
      billed rates, unless it settles at the saturated price, the seller nets the ask less the
      fee less a residual bounded by the loss charged on the charges. */
  lemma CdaPassesChargesThrough(buys: seq<FastOrder>, sells: seq<FastOrder>, env: Env, rates: ChargeRates, x: MatchResult)
    requires UniqueIds(buys) && UniqueIds(sells) && Runnable(RankBuys(buys), env) && GuardMultiplier(env.multiplier) == FACTOR
    requires NonNegativePrices(sells) && env.topology == GridTopology(rates)
    requires x in CycleOutcome(buys, sells, env, false).matches && x.settlePrice < I64_MAX
    ensures PassesThrough(x, rates)
  {
    hide LandedCost, CycleOutcome, RankBuys, GridTopology, PassesThrough;
    CycleConserves(buys, sells, env);
    var matches := CycleOutcome(buys, sells, env, false).matches;
    var k :| 0 <= k < |matches| && matches[k] == x;
    var c0 := Start(buys, sells);
    assert Sourced(matches[k], c0.buys, sells, Guarded(env));
    var i, j :| 0 <= i < |c0.buys| && 0 <= j < |sells| && IsMatchOf(x, c0.buys[i], sells[j], Guarded(env));
    MatchPassesThrough(x, c0.buys[i], sells[j], Guarded(env), rates);
  }

  // ---------- The funding bound ----------

  /** Conversion moves an in-range price by at most half a unit. */
  lemma ConversionError(price: int)
    requires 0 <= price
    ensures 2 * ToDecimal(FromDecimal(price)) <= 2 * price + QUANTA_PER_RAW
  {
  }

  /** The most a buy of `amount` at this decimal price can ever be charged, in 1e-37: its bid,
      for all of it. */
  function WorstSpend(price: int, amount: int): int { FromDecimal(price) * amount }

  /** What placement would require of the buyer at the price the engines match at. */
  function RequirementAtBid(orderType: OrderType, explicitPrice: Option<int>, price: int, amount: int): BuyFundingRequirement {
    RequiredBuyFunding(Buy, orderType, explicitPrice, ToDecimal(FromDecimal(price)), amount)
  }

  /** Converting the price would not raise the requirement. */
  predicate CoversBid(orderType: OrderType, explicitPrice: Option<int>, price: int, amount: int) {
    var required := RequiredBuyFunding(Buy, orderType, explicitPrice, price, amount);
    var atBid := RequirementAtBid(orderType, explicitPrice, price, amount);
    required.Atomic? && atBid.Atomic? && atBid.amount <= required.amount
  }

  /** The requirement covers the worst spend if and only if requiring the same at the converted
      price would ask for no more; at any price the shortfall is at most half a unit of 1e-9 for
      each kWh. */
  lemma RequirementCoversSpend(orderType: OrderType, explicitPrice: Option<int>, price: int, amount: int)
    requires price > 0 && amount > 0 && (orderType.Limit? || explicitPrice.Some?)
    ensures var r := RequiredBuyFunding(Buy, orderType, explicitPrice, price, amount);
      r.Atomic? && (r.amount < U64_MAX ==>
        && 2 * WorstSpend(price, amount) <= 2 * (r.amount * GROSS_PER_ATOMIC) + amount
        && (WorstSpend(price, amount) <= r.amount * GROSS_PER_ATOMIC <==> CoversBid(orderType, explicitPrice, price, amount)))
  {
    hide FromDecimal, RequiredBuyFunding, RequirementAtBid;
    var r := RequiredBuyFunding(Buy, orderType, explicitPrice, price, amount);
    RequirementIsLeastCover(orderType, explicitPrice, price, amount, 0);
    RequirementIsLeastCover(orderType, explicitPrice, price, amount, r.amount);
    BidCovers(orderType, explicitPrice, price, amount, 0);
    if r.amount < U64_MAX {
      ConversionError(price);
      BidCovers(orderType, explicitPrice, price, amount, r.amount);
      var bid: int := FromDecimal(price);
      assert PRODUCT_PER_ATOMIC == QUANTA_PER_RAW * GROSS_PER_ATOMIC;
      CoverAtBid(2 * bid - 1, 2 * price, amount, 2 * r.amount, QUANTA_PER_RAW, GROSS_PER_ATOMIC);
    }
  }

  /** A balance covers the worst spend if and only if it meets the requirement at the converted
      price. */
  lemma BidCovers(orderType: OrderType, explicitPrice: Option<int>, price: int, amount: int, available: int)
    requires price > 0 && amount > 0 && (orderType.Limit? || explicitPrice.Some?) && available < U64_MAX
    ensures RequirementAtBid(orderType, explicitPrice, price, amount).Atomic?
    ensures WorstSpend(price, amount) <= available * GROSS_PER_ATOMIC
      <==> RequirementAtBid(orderType, explicitPrice, price, amount).amount <= available
  {
    FromDecimalMonotone(0, price);
    DecimalRoundTrip(0);
    var bid: int := FromDecimal(price);
    var product := ToDecimal(bid) * amount;
    CeilDivLeast(product, PRODUCT_PER_ATOMIC, available);
    CeilDivLeast(product, PRODUCT_PER_ATOMIC, -1);
    hide FromDecimal, CeilDiv;
    assert PRODUCT_PER_ATOMIC == QUANTA_PER_RAW * GROSS_PER_ATOMIC;
    assert bid * amount >= 0;
    assert product == QUANTA_PER_RAW * (bid * amount);
    assert available * PRODUCT_PER_ATOMIC == QUANTA_PER_RAW * (available * GROSS_PER_ATOMIC);
    CancelFactor(QUANTA_PER_RAW, bid * amount, available * GROSS_PER_ATOMIC);
  }

  lemma CoverAtBid(bid: int, price: int, amount: int, enough: int, quanta: int, gross: int)
    requires quanta > 0 && amount > 0 && bid * quanta <= price && price * amount <= enough * (quanta * gross)
    ensures bid * amount <= enough * gross
  {
    assert (price - bid * quanta) * amount >= 0;
    assert bid * quanta * amount == quanta * (bid * amount);
    assert enough * (quanta * gross) == quanta * (enough * gross);
    CancelFactor(quanta, bid * amount, enough * gross);
  }

  /** Nine-decimal prices in range never round. */
  lemma NineDecimalsExact(raw: I64)
    ensures ToDecimal(FromDecimal(raw * QUANTA_PER_RAW)) == raw * QUANTA_PER_RAW
  {
    DecimalRoundTrip(raw);
  }

  /** A finer price can round up, and then a large order costs more than it was made to fund:
      1.6e-9 per kWh for ten billion kWh. */
  lemma FinePriceUnderfunds()
    ensures var price, amount := 16 * (QUANTA_PER_RAW / 10), 10_000_000_000 * ONE;
      RequiredBuyFunding(Buy, Limit, Some(price), price, amount) == Atomic(16_000_000)
      && RequirementAtBid(Limit, Some(price), price, amount) == Atomic(20_000_000)
      && !CoversBid(Limit, Some(price), price, amount)
  {
  }
}
