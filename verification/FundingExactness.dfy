/** Exactly when the funds placement requires cover everything a buy is charged: over every run,
    with a run that charges the whole bid. */
module FundingExactness {
  import opened Options
  import opened FastPrices
  import opened Words
  import opened Orders
  import opened Pricing
  import opened CdaSpec
  import opened CdaRefinement
  import opened CdaSafety
  import opened AuctionSpec
  import opened AuctionSafety
  import opened Charges
  import opened OrderPolicy
  import opened Money
  import opened Crossing
  import opened LedgerSpec
  import opened LedgerTheorems
  import opened TradingServices
  import opened CycleRuns
  import opened SweepBalance

  /** A grid that refuses nothing and charges nothing. */
  const FreeGrid := Topology((from, to, amount) => true, (from, to) => 0, (from, to) => FACTOR)

  /** A buy that a cycle of its segment started at `now` may fill. */
  ghost predicate Fillable(buy: TradingOrder, now: I64) {
    Fresh(buy) && buy.side.Buy? && buy.epochId.Some? && FastFrom(buy, 0).Resting(now)
  }

  /** An ask of the same size, place and epoch at the buy's own price, by someone else. */
  function Counterpart(buy: TradingOrder): TradingOrder {
    var other := if buy.id == 0 then 1 else 0;
    var user := if buy.userId == 0 then 1 else 0;
    TradingOrder(other, user, Sell, buy.price, buy.energyAmount, 0, Active, Gtc, buy.segment, buy.zone, buy.epochId, 0, None, None, None)
  }

  lemma FreeLanding(ask: I64)
    requires 0 <= ask
    ensures LandedCost(ask, ZoneFees(0, FACTOR), FACTOR) == ask
  {
    assert LossCost(ask, FACTOR) == 0;
  }

  lemma BidNonNegative(price: int)
    requires price > 0
    ensures 0 <= FromDecimal(price)
  {
    FromDecimalMonotone(0, price);
    DecimalRoundTrip(0);
  }

  lemma CounterpartCrosses(buy: TradingOrder, now: I64)
    requires Fillable(buy, now)
    ensures var sell := Counterpart(buy);
      && Crosses(FastFrom(buy, 0), FastFrom(sell, 0), CdaEnv([buy], FreeGrid, now))
      && NeverRefuses(FreeGrid)
  {
    BidNonNegative(buy.price);
    hide LandedCost, FromDecimal;
    FreeLanding(FromDecimal(buy.price));
  }

  /** One match for all of the buy, at its bid, and nothing to cancel. */
  ghost predicate TradesAll(phase: Phase, buy: TradingOrder) {
    && phase.Booking? && |phase.batch.matches| == 1 && phase.sweep == []
    && var x := phase.batch.matches[0];
    && x.buyOrderId == buy.id && x.sellOrderId == Counterpart(buy).id
    && x.matchAmount == buy.energyAmount && x.settlePrice == FromDecimal(buy.price)
  }

  lemma CounterpartMatches(buy: TradingOrder, now: I64)
    requires Fillable(buy, now) && buy.segment.Realtime?
    ensures TradesAll(BookingOf(Realtime, [buy], [Counterpart(buy)], FreeGrid, now), buy)
  {
    hide CycleOutcome, RankBuys, FromDecimal, Flagged, FastOf, MetadataOf, NeverRefuses, IsMatchOf, CdaSafety.Crosses;
    var sell := Counterpart(buy);
    CounterpartCrosses(buy, now);
    FastOfOne(buy);
    FastOfOne(sell);
    FastRunnable([buy], FreeGrid, now);
    var fb, fs, env := FastFrom(buy, 0), FastFrom(sell, 0), CdaEnv([buy], FreeGrid, now);
    assert Guarded(env) == env;
    LonePairTrades(fb, fs, env);
    var c := CycleOutcome([fb], [fs], env, false);
    BidNonNegative(buy.price);
    AtTheBid(c.matches[0], fb, fs, env);
    FlaggedOfOne(c.buys[0], now);
    FlaggedOfOne(c.sells[0], now);
  }

  lemma AtTheBid(x: MatchResult, buy: FastOrder, sell: FastOrder, env: Env)
    requires IsMatchOf(x, buy, sell, env) && env.topology == FreeGrid && env.multiplier == FACTOR && 0 <= sell.price
    ensures x.settlePrice == sell.price && x.buyOrderId == buy.id && x.sellOrderId == sell.id
  {
    hide LandedCost;
    FreeLanding(sell.price);
  }

  // ---------- The same pair at auction ----------

  lemma CounterpartClears(buy: TradingOrder, now: I64)
    requires Fillable(buy, now) && buy.segment.Interval?
    ensures TradesAll(BookingOf(Interval, [buy], [Counterpart(buy)], FreeGrid, now), buy)
  {
    hide AuctionOutcome, FromDecimal, FastOf, MetadataOf, Flatten;
    var sell := Counterpart(buy);
    FastOfOne(buy);
    FastOfOne(sell);
    FastRunnable([buy], FreeGrid, now);
    var x := LonePairClears(FastFrom(buy, 0), FastFrom(sell, 0), ClearingEnv([buy], FreeGrid, now));
  }

  // ---------- The run ----------

  /** A live pair's booking lands. */
  lemma PairBooks(db: Db, buy: TradingOrder, sell: TradingOrder, t: TradeRow)
    requires db == Db(map[buy.id := buy, sell.id := sell], []) && buy.id != sell.id && buy.Live() && sell.Live()
    requires t.buyOrderId == buy.id && t.sellOrderId == sell.id
    ensures var r := Attempt(db, t, true);
      && r.trades == [t] && buy.id in r.orders && r.orders[buy.id].SameOrder(buy)
  {
  }

  lemma ChargedOnce(t: TradeRow)
    ensures Charged([t], t.buyOrderId) == t.total
  {
    assert [t][..0] == [];
    assert Charged([], t.buyOrderId) == 0;
  }

  lemma PersistOne(db: Db, batch: MatchBatch, rates: ChargeRates)
    requires |batch.matches| == 1 && AllDescribed(batch)
    ensures Describes(batch.matches[0], batch)
    ensures PersistAll(db, batch, 1, rates, Landed) == Attempt(db, TradeOf(batch.matches[0], batch, rates), true)
  {
    assert batch.matches[0] in batch.matches;
    assert PersistAll(db, batch, 0, rates, Landed) == db;
  }

  /** For every such buy there is a run from the empty market that charges its bid for all of it. */
  lemma ChargedToTheBid(buy: TradingOrder, now: I64, rates: ChargeRates) returns (h: History)
    requires Fillable(buy, now)
    ensures h.Valid() && h.trace[0] == Empty
    ensures buy.id in h.Last().db.orders && h.Last().db.orders[buy.id].SameOrder(buy)
    ensures Charged(h.Last().db.trades, buy.id) == WorstSpend(buy.price, buy.energyAmount)
  {
    hide LedgerOk, IsListing, Charged, BookingOf, Attempt, PersistAll, FromDecimal;
    var sell, segment, epoch := Counterpart(buy), buy.segment, buy.epochId.value;
    var placed, db := PlacedPair(buy, sell, epoch);
    CycleKeepsLedger(db, segment, epoch, [buy], [sell], FreeGrid, now, rates, Landed, Landed);
    var phase := BookingOf(segment, [buy], [sell], FreeGrid, now);
    if segment.Realtime? {
      CounterpartMatches(buy, now);
    } else {
      CounterpartClears(buy, now);
    }
    PersistOne(db, phase.batch, rates);
    var t := TradeOf(phase.batch.matches[0], phase.batch, rates);
    PairBooks(db, buy, sell, t);
    ChargedOnce(t);
    TotalIsSpend(buy.energyAmount, FromDecimal(buy.price));
    h := CycleIsARun(placed, db, segment, epoch, [buy], [sell], FreeGrid, now, rates, Landed, Landed);
  }

  lemma TotalIsSpend(amount: int, bid: int)
    ensures amount * bid == bid * amount
  {
  }

  /** No run charges this buy more than `required` atomic units. */
  ghost predicate NeverOvercharged(buy: TradingOrder, required: int) {
    forall trace: seq<System>, steps: seq<Step>, k: nat ::
      IsRun(trace, steps) && trace[0] == Empty && k <= |steps|
      && buy.id in trace[k].db.orders && trace[k].db.orders[buy.id].SameOrder(buy)
      ==> Charged(trace[k].db.trades, buy.id) <= required * GROSS_PER_ATOMIC
  }

  /** The funds required at placement cover every run if and only if converting the price would
      not raise them. */
  lemma FundingExactly(buy: TradingOrder, now: I64, orderType: OrderType, price: Option<int>)
    requires Fillable(buy, now) && price.Some?
    requires ResolveOrderPrice(orderType, Buy, buy.timeInForce, price) == Ok(buy.price)
    ensures var required := RequiredBuyFunding(Buy, orderType, price, buy.price, buy.energyAmount);
      required.Atomic? && (required.amount < U64_MAX ==>
        (NeverOvercharged(buy, required.amount) <==> CoversBid(orderType, price, buy.price, buy.energyAmount)))
  {
    hide Charged, RequiredBuyFunding, CoversBid, WorstSpend, ResolveOrderPrice, FromDecimal;
    RequirementCoversSpend(orderType, price, buy.price, buy.energyAmount);
    var required := RequiredBuyFunding(Buy, orderType, price, buy.price, buy.energyAmount);
    if required.amount < U64_MAX {
      if CoversBid(orderType, price, buy.price, buy.energyAmount) {
        forall trace: seq<System>, steps: seq<Step>, k: nat
          | IsRun(trace, steps) && trace[0] == Empty && k <= |steps|
            && buy.id in trace[k].db.orders && trace[k].db.orders[buy.id].SameOrder(buy)
          ensures Charged(trace[k].db.trades, buy.id) <= required.amount * GROSS_PER_ATOMIC
        {
          FundingCoversRun(trace, steps, k, buy.id, orderType, price);
        }
      } else {
        var h := ChargedToTheBid(buy, now, NO_RATES);
        assert IsRun(h.trace, h.steps) && h.trace[|h.steps|] == h.Last();
      }
    }
  }

  /** The fine price again, as a run: the buyer is charged twenty units where sixteen were
      required. */
  lemma FinePriceOvercharges(buy: TradingOrder, now: I64, rates: ChargeRates) returns (h: History)
    requires Fillable(buy, now) && buy.price == 16 * (QUANTA_PER_RAW / 10) && buy.energyAmount == 10_000_000_000 * ONE
    ensures h.Valid() && h.trace[0] == Empty
    ensures RequiredBuyFunding(Buy, Limit, Some(buy.price), buy.price, buy.energyAmount) == Atomic(16_000_000)
    ensures Charged(h.Last().db.trades, buy.id) == 20_000_000 * GROSS_PER_ATOMIC
  {
    FinePriceUnderfunds();
    h := ChargedToTheBid(buy, now, rates);
    hide Charged;
    assert FromDecimal(buy.price) == 2;
  }
}
