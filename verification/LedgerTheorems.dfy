/** Ledger conservation over whole runs: whatever interleaves, fills and settlements agree,
    no order is overfilled, and no buyer pays more than placement made them fund. */
module LedgerTheorems {
  import opened Options
  import opened FastPrices
  import opened Words
  import opened Orders
  import opened CdaSpec
  import opened CdaRefinement
  import opened CdaSafety
  import opened AuctionSafety
  import opened Arithmetic
  import opened Charges
  import opened OrderPolicy
  import opened Money
  import opened Crossing
  import opened LedgerSpec

  // ---------- The invariant ----------

  /** A trade is between a buy and a sell of different users, resting in the same segment (and at
      auction in the same epoch and zone), at a price between theirs, and carries the buyer's epoch
      and each side's own token. */
  ghost predicate TradeOk(orders: OrderRows, t: TradeRow) {
    && t.buyOrderId in orders && t.sellOrderId in orders
    && var buy, sell := orders[t.buyOrderId], orders[t.sellOrderId];
    && buy.side.Buy? && sell.side.Sell? && buy.segment == sell.segment
    && (buy.segment.Interval? ==> buy.epochId == sell.epochId && buy.zone == sell.zone)
    && t.energy >= MIN_TRADE_AMOUNT && t.total == t.energy * t.price
    && FromDecimal(sell.price) <= t.price <= FromDecimal(buy.price)
    && t.buyerId == buy.userId && t.sellerId == sell.userId && t.buyerId != t.sellerId
    && buy.epochId == Some(t.epochId) && t.buyerToken == buy.sessionToken && t.sellerToken == sell.sessionToken
  }

  /** The charges of a booked trade account for its whole gross. */
  ghost predicate ChargesAddUp(t: TradeRow) {
    t.charges.fee + t.charges.wheeling + t.charges.loss + t.charges.net == t.total * BPS
  }

  const NO_RATES := ChargeRates(0, 0, 0)

  ghost predicate MatchOk(orders: OrderRows, x: MatchResult, batch: MatchBatch, segment: MarketSegment) {
    Describes(x, batch) && TradeOk(orders, TradeOf(x, batch, NO_RATES)) && orders[x.buyOrderId].segment == segment
  }

  /** A buy read earlier is still what was read, except that it may have become terminal. */
  ghost predicate ReadOk(orders: OrderRows, o: TradingOrder, segment: MarketSegment, epoch: Uuid) {
    && o.id in orders && orders[o.id].SameOrder(o) && Listed(o, Buy, segment, epoch)
    && o.price > 0 && 0 <= o.filledAmount <= o.energyAmount
    && (orders[o.id].Live() ==> orders[o.id].filledAmount == o.filledAmount)
  }

  /** A remainder to cancel belongs to an immediate order, and its fill is within its size. */
  ghost predicate SweptOk(orders: OrderRows, o: FastOrder) {
    && o.id in orders && orders[o.id].timeInForce.IsImmediate()
    && 0 <= o.filledAmount <= orders[o.id].energyAmount
  }

  ghost predicate PhaseOk(orders: OrderRows, phase: Phase, segment: MarketSegment) {
    match phase
    case Idle => true
    case BuysRead(epoch, buys) => UniqueOrders(buys) && forall o :: o in buys ==> ReadOk(orders, o, segment, epoch)
    case Booking(batch, sweep) =>
      && (forall x :: x in batch.matches ==> MatchOk(orders, x, batch, segment))
      && (forall o :: o in sweep ==> SweptOk(orders, o))
  }

  /** The ledger holds of one order. */
  ghost predicate OrderOk(s: System, id: Uuid)
    requires id in s.db.orders
  {
    var o := s.db.orders[id];
    && o.id == id && o.price > 0 && 0 <= o.filledAmount <= o.energyAmount
    && Settled(s.db.trades, id) <= o.energyAmount
    && (o.Live() || o.timeInForce.Gtc? ==> o.filledAmount == Settled(s.db.trades, id))
    && (o.Live() ==> o.filledAmount + Queued(s.PhaseOf(o.segment), id) <= o.energyAmount)
  }

  ghost predicate LedgerOk(s: System) {
    && (forall id :: id in s.db.orders ==> OrderOk(s, id))
    && (forall t :: t in s.db.trades ==> TradeOk(s.db.orders, t) && ChargesAddUp(t))
    && PhaseOk(s.db.orders, s.matcher, Realtime) && PhaseOk(s.db.orders, s.clearing, Interval)
  }

  // ---------- Writes that fill nothing ----------

  /** Orders keep their terms, a live one was live before, and no new fill appears but an
      immediate order's absolute one, which also ends it. */
  ghost predicate Quiets(orders: OrderRows, orders': OrderRows) {
    && orders'.Keys == orders.Keys
    && forall id :: id in orders ==>
         && orders'[id].SameOrder(orders[id])
         && (orders'[id].Live() ==> orders'[id] == orders[id])
         && (orders'[id].filledAmount == orders[id].filledAmount
             || (!orders[id].timeInForce.Gtc? && 0 <= orders'[id].filledAmount <= orders[id].energyAmount))
  }

  lemma PhaseKept(orders: OrderRows, orders': OrderRows, phase: Phase, segment: MarketSegment)
    requires PhaseOk(orders, phase, segment)
    requires forall id :: id in orders ==> id in orders' && orders'[id].SameOrder(orders[id])
    requires forall id :: id in orders && orders[id].segment == segment && orders'[id].Live() ==>
      orders[id].Live() && orders'[id].filledAmount == orders[id].filledAmount
    ensures PhaseOk(orders', phase, segment)
  {
    hide TradeOf, FromDecimal;
    match phase {
      case Idle =>
      case BuysRead(epoch, buys) =>
        forall o | o in buys ensures ReadOk(orders', o, segment, epoch) {
          assert ReadOk(orders, o, segment, epoch);
        }
      case Booking(batch, sweep) =>
        BookingKept(orders, orders', phase, segment);
    }
  }

  /** Matches waiting to be booked stay valid whatever happens to their orders' fills. */
  lemma BookingKept(orders: OrderRows, orders': OrderRows, phase: Phase, segment: MarketSegment)
    requires phase.Booking? && PhaseOk(orders, phase, segment)
    requires forall id :: id in orders ==> id in orders' && orders'[id].SameOrder(orders[id])
    ensures PhaseOk(orders', phase, segment)
  {
    hide TradeOf, FromDecimal;
    forall x | x in phase.batch.matches ensures MatchOk(orders', x, phase.batch, segment) {
      assert MatchOk(orders, x, phase.batch, segment);
      TradeNames(x, phase.batch, NO_RATES);
      TradeKept(orders, orders', TradeOf(x, phase.batch, NO_RATES));
    }
    forall o | o in phase.sweep ensures SweptOk(orders', o) {
      assert SweptOk(orders, o);
    }
  }

  lemma TradeNames(x: MatchResult, batch: MatchBatch, rates: ChargeRates)
    requires Describes(x, batch)
    ensures var t := TradeOf(x, batch, rates);
      t.buyOrderId == x.buyOrderId && t.sellOrderId == x.sellOrderId && t.energy == x.matchAmount
  {
  }

  lemma TradeKept(orders: OrderRows, orders': OrderRows, t: TradeRow)
    requires TradeOk(orders, t)
    requires forall id :: id in orders ==> id in orders' && orders'[id].SameOrder(orders[id])
    ensures TradeOk(orders', t)
  {
    hide FromDecimal;
  }

  lemma TradesKept(orders: OrderRows, orders': OrderRows, trades: seq<TradeRow>)
    requires forall t :: t in trades ==> TradeOk(orders, t) && ChargesAddUp(t)
    requires forall id :: id in orders ==> id in orders' && orders'[id].SameOrder(orders[id])
    ensures forall t :: t in trades ==> TradeOk(orders', t) && ChargesAddUp(t)
  {
    hide TradeOk, ChargesAddUp;
    forall t | t in trades ensures TradeOk(orders', t) && ChargesAddUp(t) {
      TradeKept(orders, orders', t);
    }
  }

  lemma QuietWriteKeepsLedger(s: System, orders': OrderRows)
    requires LedgerOk(s) && Quiets(s.db.orders, orders')
    ensures LedgerOk(s.WithOrders(orders'))
  {
    hide TradeOk, ChargesAddUp, PhaseOk, Settled, Queued;
    var r := s.WithOrders(orders');
    TradesKept(s.db.orders, orders', s.db.trades);
    PhaseKept(s.db.orders, orders', s.matcher, Realtime);
    PhaseKept(s.db.orders, orders', s.clearing, Interval);
    forall id | id in orders' ensures OrderOk(r, id) {
      assert OrderOk(s, id);
      assert s.db.orders[id].segment == orders'[id].segment;
    }
  }

  // ---------- Placement ----------

  lemma {:induction false} NothingSettled(trades: seq<TradeRow>, id: Uuid)
    requires forall t :: t in trades ==> t.buyOrderId != id && t.sellOrderId != id
    ensures Settled(trades, id) == 0
  {
    if trades != [] {
      NothingSettled(trades[..|trades| - 1], id);
      assert trades[|trades| - 1] in trades;
    }
  }

  lemma {:induction false} NothingBought(matches: seq<MatchResult>, id: Uuid)
    requires forall x :: x in matches ==> x.buyOrderId != id
    ensures BoughtBy(matches, id) == 0
  {
    if matches != [] {
      NothingBought(matches[..|matches| - 1], id);
      assert matches[|matches| - 1] in matches;
    }
  }

  lemma {:induction false} NothingSold(matches: seq<MatchResult>, id: Uuid)
    requires forall x :: x in matches ==> x.sellOrderId != id
    ensures SoldBy(matches, id) == 0
  {
    if matches != [] {
      NothingSold(matches[..|matches| - 1], id);
      assert matches[|matches| - 1] in matches;
    }
  }

  lemma PhaseNames(orders: OrderRows, phase: Phase, segment: MarketSegment)
    requires PhaseOk(orders, phase, segment) && phase.Booking?
    ensures forall x :: x in phase.batch.matches ==>
      x.buyOrderId in orders && x.sellOrderId in orders && x.matchAmount > 0
      && orders[x.buyOrderId].side.Buy? && orders[x.sellOrderId].side.Sell?
      && orders[x.buyOrderId].segment == segment == orders[x.sellOrderId].segment
  {
    hide FromDecimal;
    forall x | x in phase.batch.matches
      ensures x.buyOrderId in orders && x.sellOrderId in orders && x.matchAmount > 0
        && orders[x.buyOrderId].side.Buy? && orders[x.sellOrderId].side.Sell?
        && orders[x.buyOrderId].segment == segment == orders[x.sellOrderId].segment
    {
      assert MatchOk(orders, x, phase.batch, segment);
      TradeNames(x, phase.batch, NO_RATES);
    }
  }

  /** An order nobody has matched has nothing queued. */
  lemma NothingQueued(orders: OrderRows, phase: Phase, segment: MarketSegment, id: Uuid)
    requires PhaseOk(orders, phase, segment) && (id !in orders || orders[id].segment != segment)
    ensures Queued(phase, id) == 0
  {
    hide PhaseOk;
    if phase.Booking? {
      PhaseNames(orders, phase, segment);
      NothingBought(phase.batch.matches, id);
      NothingSold(phase.batch.matches, id);
    }
  }

  lemma PlaceKeepsLedger(s: System, o: TradingOrder)
    requires LedgerOk(s) && Enabled(s, Place(o))
    ensures LedgerOk(Apply(s, Place(o)))
  {
    var r := Apply(s, Place(o));
    forall t | t in s.db.trades ensures t.buyOrderId != o.id && t.sellOrderId != o.id {
      assert TradeOk(s.db.orders, t);
    }
    hide TradeOk, ChargesAddUp, PhaseOk, Settled, Queued;
    TradesKept(s.db.orders, r.db.orders, s.db.trades);
    PhaseKept(s.db.orders, r.db.orders, s.matcher, Realtime);
    PhaseKept(s.db.orders, r.db.orders, s.clearing, Interval);
    NothingSettled(s.db.trades, o.id);
    NothingQueued(s.db.orders, s.matcher, Realtime, o.id);
    NothingQueued(s.db.orders, s.clearing, Interval, o.id);
    forall id | id in r.db.orders ensures OrderOk(r, id) {
      if id != o.id {
        assert OrderOk(s, id);
      }
    }
  }

  // ---------- Reading and crossing ----------

  lemma {:induction false} QueuedNonNegative(matches: seq<MatchResult>, id: Uuid)
    requires forall x :: x in matches ==> x.matchAmount > 0
    ensures 0 <= BoughtBy(matches, id) && 0 <= SoldBy(matches, id)
  {
    if matches != [] {
      QueuedNonNegative(matches[..|matches| - 1], id);
      assert matches[|matches| - 1] in matches;
    }
  }

  lemma PhaseQueuedNonNegative(orders: OrderRows, phase: Phase, segment: MarketSegment, id: Uuid)
    requires PhaseOk(orders, phase, segment)
    ensures 0 <= Queued(phase, id)
  {
    hide PhaseOk;
    if phase.Booking? {
      PhaseNames(orders, phase, segment);
      QueuedNonNegative(phase.batch.matches, id);
    }
  }

  /** Replacing one worker's phase keeps the ledger if what it now has queued fits. */
  lemma NewPhaseKeepsLedger(s: System, segment: MarketSegment, phase: Phase)
    requires LedgerOk(s) && PhaseOk(s.db.orders, phase, segment)
    requires forall id :: id in s.db.orders && s.db.orders[id].segment == segment && s.db.orders[id].Live() ==>
      s.db.orders[id].filledAmount + Queued(phase, id) <= s.db.orders[id].energyAmount
    ensures LedgerOk(s.WithPhase(segment, phase))
  {
    hide TradeOk, ChargesAddUp, PhaseOk, Settled, Queued;
    var r := s.WithPhase(segment, phase);
    forall id | id in r.db.orders ensures OrderOk(r, id) {
      assert OrderOk(s, id);
    }
  }

  lemma ReadKeepsLedger(s: System, segment: MarketSegment, epoch: Uuid, buys: seq<TradingOrder>)
    requires LedgerOk(s) && Enabled(s, ReadBuys(segment, epoch, buys))
    ensures LedgerOk(Apply(s, ReadBuys(segment, epoch, buys)))
  {
    hide TradeOk, Settled;
    var orders := s.db.orders;
    forall o | o in buys ensures ReadOk(orders, o, segment, epoch) {
      assert OrderOk(s, o.id);
    }
    NewPhaseKeepsLedger(s, segment, BuysRead(epoch, buys));
  }

  /** Both sides as read are placed orders. */
  lemma ReadsArePlaced(s: System, segment: MarketSegment, sells: seq<TradingOrder>, topology: Topology, now: I64)
    requires LedgerOk(s) && Enabled(s, CrossOrders(segment, sells, topology, now))
    ensures Placed(s.PhaseOf(segment).buys) && Placed(sells)
  {
    hide TradeOk, Settled, UniqueOrders;
    var phase := s.PhaseOf(segment);
    forall i | 0 <= i < |phase.buys|
      ensures phase.buys[i].price > 0 && 0 <= phase.buys[i].filledAmount <= phase.buys[i].energyAmount
    {
      assert ReadOk(s.db.orders, phase.buys[i], segment, phase.epoch);
    }
    forall j | 0 <= j < |sells| ensures sells[j].price > 0 && 0 <= sells[j].filledAmount <= sells[j].energyAmount {
      assert sells[j] in sells;
      assert OrderOk(s, sells[j].id);
    }
  }

  /** A fair match of converted orders names two of the orders themselves, with their own
      epoch and tokens. */
  lemma FairMatchNames(x: MatchResult, buys: seq<TradingOrder>, sells: seq<TradingOrder>) returns (buy: TradingOrder, sell: TradingOrder)
    requires FairMatch(x, FastOf(buys), FastOf(sells), MetadataOf(buys))
    ensures buy in buys && sell in sells && buy.id == x.buyOrderId && sell.id == x.sellOrderId
    ensures FromDecimal(sell.price) <= x.settlePrice <= FromDecimal(buy.price)
    ensures x.buyerId == buy.userId && x.sellerId == sell.userId && buy.epochId == Some(x.epochId)
    ensures x.buyMetadataIndex < |MetadataOf(buys)| && x.sellMetadataIndex < |MetadataOf(sells)|
    ensures MetadataOf(buys)[x.buyMetadataIndex].sessionToken == buy.sessionToken
    ensures MetadataOf(sells)[x.sellMetadataIndex].sessionToken == sell.sessionToken
    ensures buy.zone == x.buyerZone && sell.zone == x.sellerZone
  {
    hide Settling, FromDecimal;
    var fb, fs := FastOf(buys), FastOf(sells);
    var i :| 0 <= i < |fb| && fb[i].id == x.buyOrderId && fb[i].price == x.buyerPrice
             && fb[i].userId == x.buyerId && fb[i].zone == x.buyerZone && fb[i].metadataIndex == x.buyMetadataIndex;
    var j :| 0 <= j < |fs| && fs[j].id == x.sellOrderId && fs[j].price == x.sellerPrice
             && fs[j].userId == x.sellerId && fs[j].zone == x.sellerZone && fs[j].metadataIndex == x.sellMetadataIndex;
    buy, sell := Settling(buys)[i], Settling(sells)[j];
    assert fb[i] == FastFrom(buy, i) && fs[j] == FastFrom(sell, j);
    assert MetadataOf(buys)[i] == MetadataFrom(buy) && MetadataOf(sells)[j] == MetadataFrom(sell);
  }

  lemma MatchIsOk(s: System, segment: MarketSegment, sells: seq<TradingOrder>, topology: Topology, now: I64, x: MatchResult)
    requires LedgerOk(s) && Enabled(s, CrossOrders(segment, sells, topology, now))
    requires FairMatch(x, FastOf(s.PhaseOf(segment).buys), FastOf(sells), MetadataOf(s.PhaseOf(segment).buys))
    requires segment.Interval? ==> x.buyerZone == x.sellerZone
    ensures MatchOk(s.db.orders, x, BookingOf(segment, s.PhaseOf(segment).buys, sells, topology, now).batch, segment)
    ensures exists o :: o in s.PhaseOf(segment).buys && o.id == x.buyOrderId
    ensures exists o :: o in sells && o.id == x.sellOrderId
  {
    hide Cross, CdaCycle, SweepList, FromDecimal, Settled, UniqueOrders;
    var phase := s.PhaseOf(segment);
    var buy, sell := FairMatchNames(x, phase.buys, sells);
    assert ReadOk(s.db.orders, buy, segment, phase.epoch);
    assert s.db.orders[sell.id] == sell && Listed(sell, Sell, segment, phase.epoch);
  }

  /** What a crossing queues for an order fits what the order has left. */
  lemma CrossedFits(s: System, segment: MarketSegment, sells: seq<TradingOrder>, matches: seq<MatchResult>, id: Uuid)
    requires LedgerOk(s) && s.PhaseOf(segment).BuysRead?
    requires IsListing(sells, s.db.orders, Sell, segment, s.PhaseOf(segment).epoch)
    requires GoodMatches(matches, FastOf(s.PhaseOf(segment).buys), FastOf(sells), MetadataOf(s.PhaseOf(segment).buys))
    requires id in s.db.orders && s.db.orders[id].segment == segment && s.db.orders[id].Live()
    ensures s.db.orders[id].filledAmount + BoughtBy(matches, id) + SoldBy(matches, id) <= s.db.orders[id].energyAmount
  {
    hide FromDecimal, Settled, UniqueOrders, Settling, BoughtBy, SoldBy, TradeOk;
    var buys, orders := s.PhaseOf(segment).buys, s.db.orders;
    var fb, fs := FastOf(buys), FastOf(sells);
    assert OrderOk(s, id);
    if orders[id].side.Buy? {
      forall x | x in matches ensures x.sellOrderId != id {
        var buy, sell := FairMatchNames(x, buys, sells);
      }
      NothingSold(matches, id);
      if i :| 0 <= i < |fb| && fb[i].id == id {
        assert fb[i] == FastFrom(Settling(buys)[i], i);
        assert ReadOk(orders, Settling(buys)[i], segment, s.PhaseOf(segment).epoch);
      } else {
        forall x | x in matches ensures x.buyOrderId != id {
          assert FairMatch(x, fb, fs, MetadataOf(buys));
        }
        NothingBought(matches, id);
      }
    } else {
      forall x | x in matches ensures x.buyOrderId != id {
        var buy, sell := FairMatchNames(x, buys, sells);
        assert ReadOk(orders, buy, segment, s.PhaseOf(segment).epoch);
      }
      NothingBought(matches, id);
      if j :| 0 <= j < |fs| && fs[j].id == id {
        assert fs[j] == FastFrom(Settling(sells)[j], j);
        assert Settling(sells)[j] in sells;
      } else {
        forall x | x in matches ensures x.sellOrderId != id {
          assert FairMatch(x, fb, fs, MetadataOf(buys));
        }
        NothingSold(matches, id);
      }
    }
  }

  /** Each order a continuous cycle returns is one it was given, filled further. */
  lemma CycleOrderWas(buys: seq<FastOrder>, sells: seq<FastOrder>, env: Env, o: FastOrder)
    requires UniqueIds(buys) && UniqueIds(sells) && Runnable(RankBuys(buys), env)
    ensures o in CycleOutcome(buys, sells, env, false).buys ==> exists f :: f in buys && FilledWithin(f, o)
    ensures o in CycleOutcome(buys, sells, env, false).sells ==> exists f :: f in sells && FilledWithin(f, o)
  {
    CycleConserves(buys, sells, env);
    RankBuysSorted(buys);
    hide CycleOutcome, RankBuys, FilledWithin, BoughtBy, SoldBy, Sourced, UniqueIds;
    var c0, c := Start(buys, sells), CycleOutcome(buys, sells, env, false);
    if o in c.buys {
      var j :| 0 <= j < |c.buys| && c.buys[j] == o;
      assert FilledWithin(c0.buys[j], c.buys[j]) && c0.buys[j] in buys;
    }
    if o in c.sells {
      var j :| 0 <= j < |c.sells| && c.sells[j] == o;
      assert FilledWithin(sells[j], c.sells[j]);
    }
  }

  /** The order read that an engine order stands for, if the cycle would cancel it. */
  ghost predicate StandsFor(o: FastOrder, t: TradingOrder) {
    t.id == o.id && t.timeInForce == o.timeInForce && 0 <= o.filledAmount <= t.energyAmount
  }

  lemma FastOrderWas(orders: seq<TradingOrder>, f: FastOrder, o: FastOrder)
    requires Placed(orders) && f in FastOf(orders) && FilledWithin(f, o)
    ensures exists t :: t in orders && StandsFor(o, t)
  {
    hide Settling, FromDecimal;
    var i :| 0 <= i < |FastOf(orders)| && FastOf(orders)[i] == f;
    assert f == FastFrom(Settling(orders)[i], i) && Settling(orders)[i] in orders;
    assert StandsFor(o, Settling(orders)[i]);
  }

  lemma {:induction false} FlaggedFrom(orders: seq<FastOrder>, now: I64, o: FastOrder)
    requires o in Flagged(orders, now)
    ensures o in orders && MustNotRest(o, now)
  {
    var n := |orders| - 1;
    if o in Flagged(orders[..n], now) {
      FlaggedFrom(orders[..n], now, o);
      assert o in orders;
    }
  }

  /** A remainder the cycle cancels is one of the orders it read, filled within its size. */
  lemma SweptWasRead(buys: seq<TradingOrder>, sells: seq<TradingOrder>, topology: Topology, now: I64, o: FastOrder)
    requires Placed(buys) && Placed(sells) && o in SweepList(CdaCycle(buys, sells, topology, now), now)
    ensures o.timeInForce.IsImmediate() && exists t :: (t in buys || t in sells) && StandsFor(o, t)
  {
    hide CycleOutcome, RankBuys, StandsFor, FilledWithin, FastOf, Placed;
    FastPlaced(buys);
    FastPlaced(sells);
    FastRunnable(buys, topology, now);
    var fb, fs, env := FastOf(buys), FastOf(sells), CdaEnv(buys, topology, now);
    CycleOrderWas(fb, fs, env, o);
    var c := CycleOutcome(fb, fs, env, false);
    if o in Flagged(c.buys, now) {
      FlaggedFrom(c.buys, now, o);
      var f :| f in fb && FilledWithin(f, o);
      FastOrderWas(buys, f, o);
    } else {
      FlaggedFrom(c.sells, now, o);
      var f :| f in fs && FilledWithin(f, o);
      FastOrderWas(sells, f, o);
    }
  }

  lemma SweepIsOk(s: System, sells: seq<TradingOrder>, topology: Topology, now: I64)
    requires LedgerOk(s) && Enabled(s, CrossOrders(Realtime, sells, topology, now))
    ensures forall o :: o in SweepList(CdaCycle(s.matcher.buys, sells, topology, now), now) ==> SweptOk(s.db.orders, o)
  {
    hide CdaCycle, SweepList, FromDecimal, Settled, UniqueOrders, TradeOk;
    ReadsArePlaced(s, Realtime, sells, topology, now);
    forall o | o in SweepList(CdaCycle(s.matcher.buys, sells, topology, now), now) ensures SweptOk(s.db.orders, o) {
      SweptWasRead(s.matcher.buys, sells, topology, now, o);
      var t :| (t in s.matcher.buys || t in sells) && StandsFor(o, t);
      if t in s.matcher.buys {
        assert ReadOk(s.db.orders, t, Realtime, s.matcher.epoch);
      }
    }
  }

  lemma CrossKeepsLedger(s: System, segment: MarketSegment, sells: seq<TradingOrder>, topology: Topology, now: I64)
    requires LedgerOk(s) && Enabled(s, CrossOrders(segment, sells, topology, now))
    ensures LedgerOk(Apply(s, CrossOrders(segment, sells, topology, now)))
  {
    hide Cross, CdaCycle, SweepList, OrderOk, TradeOk, SweptOk, FairMatch, MatchOk, IsListing, LedgerOk, Placed, FastOf, MetadataOf, BoughtBy, SoldBy, Settling;
    var buys := s.PhaseOf(segment).buys;
    var phase := BookingOf(segment, buys, sells, topology, now);
    var matches := phase.batch.matches;
    ReadsArePlaced(s, segment, sells, topology, now);
    CrossIsGood(segment, buys, sells, topology, now);
    if segment.Realtime? {
      SweepIsOk(s, sells, topology, now);
    }
    forall x | x in matches ensures MatchOk(s.db.orders, x, phase.batch, segment) {
      CrossIsTradeable(segment, buys, sells, topology, now, x);
      MatchIsOk(s, segment, sells, topology, now, x);
    }
    forall id | id in s.db.orders && s.db.orders[id].segment == segment && s.db.orders[id].Live()
      ensures s.db.orders[id].filledAmount + Queued(phase, id) <= s.db.orders[id].energyAmount
    {
      CrossedFits(s, segment, sells, matches, id);
    }
    NewPhaseKeepsLedger(s, segment, phase);
  }

  // ---------- Booking ----------

  lemma QueuedHead(matches: seq<MatchResult>, id: Uuid)
    requires matches != []
    ensures BoughtBy(matches, id) == (if matches[0].buyOrderId == id then matches[0].matchAmount else 0) + BoughtBy(matches[1..], id)
    ensures SoldBy(matches, id) == (if matches[0].sellOrderId == id then matches[0].matchAmount else 0) + SoldBy(matches[1..], id)
  {
    assert matches == [matches[0]] + matches[1..];
    BoughtAppend([matches[0]], matches[1..], id);
    SoldAppend([matches[0]], matches[1..], id);
    assert BoughtBy([], id) == 0 && SoldBy([], id) == 0;
    assert [matches[0]][..0] == [];
  }

  /** A committed trade advances exactly its two orders, which were live. */
  lemma PersistedTrade(db: Db, t: TradeRow)
    requires TradeOk(db.orders, t)
    ensures var r := PersistTrade(db, t);
      && (r.Some? <==> db.orders[t.buyOrderId].Live() && db.orders[t.sellOrderId].Live())
      && (r.Some? ==>
        && r.value.trades == db.trades + [t] && r.value.orders.Keys == db.orders.Keys
        && (forall id :: id in db.orders ==>
             && r.value.orders[id].SameOrder(db.orders[id])
             && r.value.orders[id].filledAmount == db.orders[id].filledAmount + Share(t, id)
             && (id != t.buyOrderId && id != t.sellOrderId ==> r.value.orders[id] == db.orders[id])
             && (r.value.orders[id].Live() ==> db.orders[id].Live())))
  {
    hide FromDecimal;
    assert t.buyOrderId != t.sellOrderId;
  }

  lemma SettledNext(trades: seq<TradeRow>, t: TradeRow, id: Uuid)
    ensures Settled(trades + [t], id) == Settled(trades, id) + Share(t, id)
  {
    assert (trades + [t])[..|trades + [t]| - 1] == trades;
  }

  /** What one booking attempt does to one order's row and settlements. */
  lemma AttemptMoves(db: Db, t: TradeRow, reached: bool, id: Uuid)
    requires TradeOk(db.orders, t)
    ensures var r, committed := Attempt(db, t, reached), reached && PersistTrade(db, t).Some?;
      && (id in r.orders <==> id in db.orders)
      && Settled(r.trades, id) == Settled(db.trades, id) + (if committed then Share(t, id) else 0)
      && (id in db.orders ==>
        && r.orders[id].SameOrder(db.orders[id])
        && r.orders[id].filledAmount == db.orders[id].filledAmount + (if committed then Share(t, id) else 0)
        && (r.orders[id].Live() ==> db.orders[id].Live()))
  {
    hide TradeOk, PersistTrade, Settled, Share;
    PersistedTrade(db, t);
    SettledNext(db.trades, t, id);
  }

  lemma PoppedPhaseOk(orders: OrderRows, phase: Phase, segment: MarketSegment)
    requires phase.Booking? && PhaseOk(orders, phase, segment) && phase.batch.matches != []
    ensures PhaseOk(orders, phase.(batch := phase.batch.(matches := phase.batch.matches[1..])), segment)
  {
    hide TradeOk, FromDecimal;
    var popped := phase.batch.(matches := phase.batch.matches[1..]);
    forall x | x in popped.matches ensures MatchOk(orders, x, popped, segment) {
      assert x in phase.batch.matches;
      assert MatchOk(orders, x, phase.batch, segment);
    }
  }

  /** The match about to be booked makes a valid trade at any rates. */
  lemma HeadTradeOk(orders: OrderRows, phase: Phase, segment: MarketSegment, rates: ChargeRates)
    requires phase.Booking? && PhaseOk(orders, phase, segment) && phase.batch.matches != []
    ensures Describes(phase.batch.matches[0], phase.batch)
    ensures var t := TradeOf(phase.batch.matches[0], phase.batch, rates);
      && TradeOk(orders, t) && ChargesAddUp(t) && orders[t.buyOrderId].segment == segment
      && orders[t.sellOrderId].segment == segment
  {
    hide FromDecimal;
    assert MatchOk(orders, phase.batch.matches[0], phase.batch, segment);
  }

  lemma BookKeepsLedger(s: System, segment: MarketSegment, rates: ChargeRates, reached: bool)
    requires LedgerOk(s) && Enabled(s, Book(segment, rates, reached))
    ensures LedgerOk(Apply(s, Book(segment, rates, reached)))
  {
    var phase := s.PhaseOf(segment);
    var popped := phase.(batch := phase.batch.(matches := phase.batch.matches[1..]));
    PoppedPhaseOk(s.db.orders, phase, segment);
    HeadTradeOk(s.db.orders, phase, segment, rates);
    var t := TradeOf(phase.batch.matches[0], phase.batch, rates);
    TradeNames(phase.batch.matches[0], phase.batch, rates);
    forall id ensures Queued(phase, id) == Share(t, id) + Queued(popped, id) {
      QueuedHead(phase.batch.matches, id);
    }
    var u := s.WithPhase(segment, popped);
    assert LedgerOk(u) by {
      hide TradeOk, PhaseOk, Queued, TradeOf, Settled;
      forall id | id in s.db.orders && s.db.orders[id].segment == segment && s.db.orders[id].Live()
        ensures s.db.orders[id].filledAmount + Queued(popped, id) <= s.db.orders[id].energyAmount
      {
        assert OrderOk(s, id);
        ShareNonNegative(s.db.orders, t, id);
      }
      NewPhaseKeepsLedger(s, segment, popped);
    }
    if reached && PersistTrade(s.db, t).Some? {
      PersistedTrade(s.db, t);
      hide PersistTrade, TradeOk, PhaseOk, Queued, TradeOf, Settled;
      CommitKeepsLedger(s, segment, popped, t, PersistTrade(s.db, t).value);
    }
  }

  lemma ShareNonNegative(orders: OrderRows, t: TradeRow, id: Uuid)
    requires TradeOk(orders, t)
    ensures 0 <= Share(t, id)
  {
    hide FromDecimal;
  }

  lemma CommitKeepsLedger(s: System, segment: MarketSegment, popped: Phase, t: TradeRow, db: Db)
    requires LedgerOk(s) && LedgerOk(s.WithPhase(segment, popped)) && popped.Booking?
    requires forall id :: Queued(s.PhaseOf(segment), id) == Share(t, id) + Queued(popped, id)
    requires TradeOk(s.db.orders, t) && ChargesAddUp(t)
    requires s.db.orders[t.buyOrderId].segment == segment && s.db.orders[t.sellOrderId].segment == segment
    requires s.db.orders[t.buyOrderId].Live() && s.db.orders[t.sellOrderId].Live()
    requires db.trades == s.db.trades + [t] && db.orders.Keys == s.db.orders.Keys
    requires forall id :: id in s.db.orders ==>
      && db.orders[id].SameOrder(s.db.orders[id])
      && db.orders[id].filledAmount == s.db.orders[id].filledAmount + Share(t, id)
      && (id != t.buyOrderId && id != t.sellOrderId ==> db.orders[id] == s.db.orders[id])
      && (db.orders[id].Live() ==> s.db.orders[id].Live())
    ensures LedgerOk(s.(db := db).WithPhase(segment, popped))
  {
    hide TradeOk, ChargesAddUp, PhaseOk, Settled, Queued;
    var r := s.(db := db).WithPhase(segment, popped);
    TradesKept(s.db.orders, db.orders, s.db.trades);
    TradeKept(s.db.orders, db.orders, t);
    var other: MarketSegment := if segment.Realtime? then Interval else Realtime;
    PhaseKept(s.db.orders, db.orders, s.PhaseOf(other), other);
    BookingKept(s.db.orders, db.orders, popped, segment);
    forall id | id in db.orders ensures OrderOk(r, id) {
      assert OrderOk(s, id);
      SettledNext(s.db.trades, t, id);
      ShareNonNegative(s.db.orders, t, id);
      PhaseQueuedNonNegative(s.db.orders, popped, segment, id);
    }
  }

  // ---------- Sweeping and the rest ----------

  lemma SweepKeepsLedger(s: System, segment: MarketSegment, reached: bool)
    requires LedgerOk(s) && Enabled(s, Sweep(segment, reached))
    ensures LedgerOk(Apply(s, Sweep(segment, reached)))
  {
    var phase := s.PhaseOf(segment);
    var popped := phase.(sweep := phase.sweep[1..]);
    assert SweptOk(s.db.orders, phase.sweep[0]);
    var u := s.WithPhase(segment, popped);
    assert LedgerOk(u) by {
      hide TradeOk, Settled;
      assert PhaseOk(s.db.orders, popped, segment);
      forall id | id in s.db.orders && s.db.orders[id].segment == segment && s.db.orders[id].Live()
        ensures s.db.orders[id].filledAmount + Queued(popped, id) <= s.db.orders[id].energyAmount
      {
        assert OrderOk(s, id);
      }
      NewPhaseKeepsLedger(s, segment, popped);
    }
    hide LedgerOk;
    if reached {
      QuietWriteKeepsLedger(u, SweepOne(s.db.orders, phase.sweep[0]));
    }
  }

  lemma EndKeepsLedger(s: System, segment: MarketSegment)
    requires LedgerOk(s)
    ensures LedgerOk(s.WithPhase(segment, Idle))
  {
    hide TradeOk, Settled;
    forall id | id in s.db.orders && s.db.orders[id].segment == segment && s.db.orders[id].Live()
      ensures s.db.orders[id].filledAmount + Queued(Idle, id) <= s.db.orders[id].energyAmount
    {
      assert OrderOk(s, id);
    }
    NewPhaseKeepsLedger(s, segment, Idle);
  }

  /** Every step keeps the ledger. */
  lemma StepKeepsLedger(s: System, step: Step)
    requires LedgerOk(s) && Enabled(s, step)
    ensures LedgerOk(Apply(s, step))
  {
    hide LedgerOk, Attempt, SweepList, Cross;
    match step {
      case Place(o) => PlaceKeepsLedger(s, o);
      case Cancel(id, userId) => QuietWriteKeepsLedger(s, CancelOrder(s.db.orders, id, userId));
      case Refuse(id) => QuietWriteKeepsLedger(s, RefuseOrder(s.db.orders, id));
      case Expire(now) => QuietWriteKeepsLedger(s, ExpireStale(s.db.orders, now));
      case ReadBuys(segment, epoch, buys) => ReadKeepsLedger(s, segment, epoch, buys);
      case CrossOrders(segment, sells, topology, now) => CrossKeepsLedger(s, segment, sells, topology, now);
      case Book(segment, rates, reached) => BookKeepsLedger(s, segment, rates, reached);
      case Sweep(segment, reached) => SweepKeepsLedger(s, segment, reached);
      case EndCycle(segment) => EndKeepsLedger(s, segment);
    }
  }

  /** Every state of every run from the empty market has a sound ledger. */
  lemma {:induction false} RunKeepsLedger(trace: seq<System>, steps: seq<Step>, k: nat)
    requires IsRun(trace, steps) && trace[0] == Empty && k <= |steps|
    ensures LedgerOk(trace[k])
  {
    if k > 0 {
      RunKeepsLedger(trace, steps, k - 1);
      hide LedgerOk, Apply;
      StepKeepsLedger(trace[k - 1], steps[k - 1]);
    }
  }

  // ---------- What a run guarantees ----------

  /** Conservation: at every moment of every run a good-till-cancelled order's durable fill is
      exactly the energy of its settlements, and no order of any kind is filled or settled past
      its size. */
  lemma LedgerConserves(trace: seq<System>, steps: seq<Step>, k: nat, id: Uuid)
    requires IsRun(trace, steps) && trace[0] == Empty && k <= |steps| && id in trace[k].db.orders
    ensures var o, settled := trace[k].db.orders[id], Settled(trace[k].db.trades, id);
      && 0 <= o.filledAmount <= o.energyAmount && settled <= o.energyAmount
      && (o.timeInForce.Gtc? || o.Live() ==> o.filledAmount == settled)
  {
    RunKeepsLedger(trace, steps, k);
    assert OrderOk(trace[k], id);
  }

  /** Every booked trade is between two orders of one segment (and, at auction, one epoch), of
      different users, at a price between theirs, with each side's own token and charges that
      account for the gross. */
  lemma TradesAreTheirOrders(trace: seq<System>, steps: seq<Step>, k: nat, t: TradeRow)
    requires IsRun(trace, steps) && trace[0] == Empty && k <= |steps| && t in trace[k].db.trades
    ensures TradeOk(trace[k].db.orders, t) && ChargesAddUp(t)
  {
    hide TradeOk, ChargesAddUp;
    RunKeepsLedger(trace, steps, k);
  }

  /** The two mechanisms never hold fills for the same order. */
  lemma NeverInBothMechanisms(trace: seq<System>, steps: seq<Step>, k: nat, id: Uuid)
    requires IsRun(trace, steps) && trace[0] == Empty && k <= |steps|
    ensures Queued(trace[k].matcher, id) == 0 || Queued(trace[k].clearing, id) == 0
  {
    RunKeepsLedger(trace, steps, k);
    hide PhaseOk, OrderOk, TradeOk;
    var s := trace[k];
    if id in s.db.orders && s.db.orders[id].segment.Realtime? {
      NothingQueued(s.db.orders, s.clearing, Interval, id);
    } else {
      NothingQueued(s.db.orders, s.matcher, Realtime, id);
    }
  }

  /** No write revives a terminal order or moves its fill. */
  lemma StepKeepsTerminal(s: System, step: Step, id: Uuid)
    requires LedgerOk(s) && Enabled(s, step) && id in s.db.orders
    ensures id in Apply(s, step).db.orders
    ensures var o, o' := s.db.orders[id], Apply(s, step).db.orders[id];
      o'.SameOrder(o) && (!o.Live() ==> !o'.Live() && o'.filledAmount == o.filledAmount)
  {
    match step {
      case Book(segment, rates, reached) =>
        var phase := s.PhaseOf(segment);
        HeadTradeOk(s.db.orders, phase, segment, rates);
        hide TradeOk, PhaseOk, OrderOk, TradeOf, PersistTrade;
        PersistedTrade(s.db, TradeOf(phase.batch.matches[0], phase.batch, rates));
        BookedTerminal(s.db, TradeOf(phase.batch.matches[0], phase.batch, rates), id);
      case _ =>
    }
  }

  lemma BookedTerminal(db: Db, t: TradeRow, id: Uuid)
    requires TradeOk(db.orders, t) && id in db.orders
    ensures PersistTrade(db, t).Some? && !db.orders[id].Live() ==>
      id in PersistTrade(db, t).value.orders && PersistTrade(db, t).value.orders[id] == db.orders[id]
  {
    hide FromDecimal;
  }

  /** Once cancelled, expired or filled, an order is never filled again, for the rest of the run. */
  lemma {:induction false} TerminalIsFinal(trace: seq<System>, steps: seq<Step>, k: nat, l: nat, id: Uuid)
    requires IsRun(trace, steps) && trace[0] == Empty && k <= l <= |steps|
    requires id in trace[k].db.orders && !trace[k].db.orders[id].Live()
    ensures id in trace[l].db.orders && !trace[l].db.orders[id].Live()
    ensures trace[l].db.orders[id].filledAmount == trace[k].db.orders[id].filledAmount
    decreases l - k
  {
    if k < l {
      RunKeepsLedger(trace, steps, k);
      hide LedgerOk, Apply;
      StepKeepsTerminal(trace[k], steps[k], id);
      TerminalIsFinal(trace, steps, k + 1, l, id);
    }
  }

  // ---------- The funding bound ----------

  function GrossOn(t: TradeRow, id: Uuid): int { if t.buyOrderId == id then t.total else 0 }

  lemma TradeAtBid(orders: OrderRows, t: TradeRow, id: Uuid)
    requires TradeOk(orders, t) && id in orders && orders[id].side.Buy?
    ensures GrossOn(t, id) <= FromDecimal(orders[id].price) * Share(t, id)
  {
    assert t.sellOrderId != id && t.total == t.energy * t.price && 0 < t.energy;
    var bid: int := FromDecimal(orders[id].price);
    hide FromDecimal;
    if t.buyOrderId == id {
      assert t.price <= bid;
      hide TradeOk;
      BidForLess(t.energy, t.price, bid);
      assert bid * t.energy == t.energy * bid;
    }
  }

  /** A buy's gross is at most its bid for each kWh it settled. */
  lemma {:induction false} SpentAtBid(orders: OrderRows, trades: seq<TradeRow>, id: Uuid)
    requires forall t :: t in trades ==> TradeOk(orders, t)
    requires id in orders && orders[id].side.Buy?
    ensures Charged(trades, id) <= FromDecimal(orders[id].price) * Settled(trades, id)
  {
    hide TradeOk, FromDecimal, Share;
    if trades != [] {
      var n := |trades| - 1;
      SpentAtBid(orders, trades[..n], id);
      TradeAtBid(orders, trades[n], id);
      Distribute(FromDecimal(orders[id].price), Settled(trades[..n], id), Share(trades[n], id));
    }
  }

  /** Over any run a buyer is charged at most the bid for the whole order. */
  lemma SpendIsBounded(trace: seq<System>, steps: seq<Step>, k: nat, id: Uuid)
    requires IsRun(trace, steps) && trace[0] == Empty && k <= |steps|
    requires id in trace[k].db.orders && trace[k].db.orders[id].side.Buy?
    ensures var o := trace[k].db.orders[id]; Charged(trace[k].db.trades, id) <= WorstSpend(o.price, o.energyAmount)
  {
    RunKeepsLedger(trace, steps, k);
    var s, o := trace[k], trace[k].db.orders[id];
    assert OrderOk(s, id);
    hide PhaseOk, FromDecimal, ChargesAddUp, Charged, Settled, Queued;
    SpentAtBid(s.db.orders, s.db.trades, id);
    FromDecimalMonotone(0, o.price);
    DecimalRoundTrip(0);
    hide TradeOk;
    BidForLess(FromDecimal(o.price), Settled(s.db.trades, id), o.energyAmount);
  }

  lemma BidForLess(bid: int, settled: int, size: int)
    requires 0 <= bid && settled <= size
    ensures bid * settled <= bid * size
  {
    assert bid * (size - settled) >= 0;
  }

  /** Over any run, whatever fills it, a limit or capped market buy never costs more than placement
      required the buyer to hold, unless that saturated, when converting the price would not
      raise that; at any price it costs at most half a unit of 1e-9 per kWh more. */
  lemma FundingCoversRun(trace: seq<System>, steps: seq<Step>, k: nat, id: Uuid, orderType: OrderType, price: Option<int>)
    requires IsRun(trace, steps) && trace[0] == Empty && k <= |steps|
    requires id in trace[k].db.orders && trace[k].db.orders[id].side.Buy? && trace[k].db.orders[id].energyAmount > 0
    requires price.Some?
    requires ResolveOrderPrice(orderType, Buy, trace[k].db.orders[id].timeInForce, price) == Ok(trace[k].db.orders[id].price)
    ensures var o, spent := trace[k].db.orders[id], Charged(trace[k].db.trades, id);
      var required := RequiredBuyFunding(Buy, orderType, price, o.price, o.energyAmount);
      required.Atomic? && (required.amount < U64_MAX ==>
        && 2 * spent <= 2 * (required.amount * GROSS_PER_ATOMIC) + o.energyAmount
        && (CoversBid(orderType, price, o.price, o.energyAmount) ==> spent <= required.amount * GROSS_PER_ATOMIC))
  {
    var o := trace[k].db.orders[id];
    SpendIsBounded(trace, steps, k, id);
    RequirementCoversSpend(orderType, price, o.price, o.energyAmount);
    hide FromDecimal, WorstSpend, RequiredBuyFunding, CoversBid, Charged;
  }

  /** For prices of at most nine decimals nothing rounds, so the requirement covers every run. */
  lemma FundingCoversRunAtNineDecimals(trace: seq<System>, steps: seq<Step>, k: nat, id: Uuid, orderType: OrderType,
                                       price: Option<int>, raw: I64)
    requires IsRun(trace, steps) && trace[0] == Empty && k <= |steps|
    requires id in trace[k].db.orders && trace[k].db.orders[id].side.Buy? && trace[k].db.orders[id].energyAmount > 0
    requires trace[k].db.orders[id].price == raw * QUANTA_PER_RAW && price.Some?
    requires ResolveOrderPrice(orderType, Buy, trace[k].db.orders[id].timeInForce, price) == Ok(trace[k].db.orders[id].price)
    ensures var o := trace[k].db.orders[id];
      var required := RequiredBuyFunding(Buy, orderType, price, o.price, o.energyAmount);
      required.Atomic? && (required.amount < U64_MAX ==> Charged(trace[k].db.trades, id) <= required.amount * GROSS_PER_ATOMIC)
  {
    hide RequiredBuyFunding, ResolveOrderPrice, Charged, FromDecimal;
    NineDecimalsExact(raw);
    FundingCoversRun(trace, steps, k, id, orderType, price);
  }

  /** End to end: a buyer whose balance passed the funding check can pay for everything that
      order is ever charged, over any run, when converting the price would not raise the
      requirement. */
  lemma AdmittedBuyerCanPay(trace: seq<System>, steps: seq<Step>, k: nat, id: Uuid, orderType: OrderType, price: Option<int>,
                            available: int)
    requires IsRun(trace, steps) && trace[0] == Empty && k <= |steps|
    requires id in trace[k].db.orders && trace[k].db.orders[id].side.Buy? && trace[k].db.orders[id].energyAmount > 0
    requires price.Some? && 0 <= available < U64_MAX
    requires ResolveOrderPrice(orderType, Buy, trace[k].db.orders[id].timeInForce, price) == Ok(trace[k].db.orders[id].price)
    requires var o := trace[k].db.orders[id];
      && CoversBid(orderType, price, o.price, o.energyAmount)
      && CheckBuyFunding(RequiredBuyFunding(Buy, orderType, price, o.price, o.energyAmount), available).Ok?
    ensures Charged(trace[k].db.trades, id) <= available * GROSS_PER_ATOMIC
  {
    FundingCoversRun(trace, steps, k, id, orderType, price);
    hide FromDecimal, ToDecimal, RequiredBuyFunding, ResolveOrderPrice, Charged;
    var o := trace[k].db.orders[id];
    var required := RequiredBuyFunding(Buy, orderType, price, o.price, o.energyAmount);
    assert required.amount <= available;
  }

  // ---------- Why the hypotheses are needed ----------

  /** The write itself checks no size: while a buy stays live, a second trade from another cycle
      commits too, whatever its size, and the buy ends filled past its size exactly when the two
      trades together do not fit it. So the bound rests on one worker per segment. */
  lemma PersistChecksNoSize(db: Db, t: TradeRow, t': TradeRow)
    requires TradeOk(db.orders, t) && TradeOk(db.orders, t') && t.buyOrderId == t'.buyOrderId && t.sellOrderId != t'.sellOrderId
    requires db.orders[t.buyOrderId].Live() && db.orders[t.sellOrderId].Live() && db.orders[t'.sellOrderId].Live()
    requires db.orders[t.buyOrderId].filledAmount + t.energy < db.orders[t.buyOrderId].energyAmount
    ensures var after := Attempt(Attempt(db, t, true), t', true); var buy := db.orders[t.buyOrderId];
      && after.trades == db.trades + [t] + [t'] && t.buyOrderId in after.orders
      && var filled := after.orders[t.buyOrderId].filledAmount;
      && filled == buy.filledAmount + t.energy + t'.energy
      && (filled > buy.energyAmount <==> t'.energy > buy.energyAmount - buy.filledAmount - t.energy)
  {
    hide FromDecimal;
  }

  function SamplePlaced(id: Uuid, side: OrderSide, energy: int): TradingOrder {
    TradingOrder(id, id, side, QUANTA_PER_RAW, energy, 0, Active, Gtc, Realtime, NoZone, Some(0), 0, None, None, None)
  }

  function SampleTrade(sell: Uuid, energy: int): TradeRow {
    TradeRow(1, sell, 1, sell, 0, energy, 1, energy, ComputeCharges(energy, energy, NO_RATES), None, None)
  }

  /** And it happens: on a sound ledger, two trades that each fit the buy fill it to four thirds
      of its size. */
  lemma PersistOverfills() returns (db: Db, t: TradeRow, t': TradeRow)
    ensures LedgerOk(System(db, Idle, Idle)) && TradeOk(db.orders, t) && TradeOk(db.orders, t')
    ensures var buy := db.orders[t.buyOrderId];
      && buy.filledAmount + t.energy <= buy.energyAmount && t'.buyOrderId == t.buyOrderId && buy.filledAmount + t'.energy <= buy.energyAmount
      && var after := Attempt(Attempt(db, t, true), t', true);
         t.buyOrderId in after.orders && 3 * after.orders[t.buyOrderId].filledAmount == 4 * buy.energyAmount
  {
    var lot := 2 * MIN_TRADE_AMOUNT;
    db := Db(map[1 := SamplePlaced(1, Buy, 3 * MIN_TRADE_AMOUNT), 2 := SamplePlaced(2, Sell, lot), 3 := SamplePlaced(3, Sell, lot)], []);
    t, t' := SampleTrade(2, lot), SampleTrade(3, lot);
    DecimalRoundTrip(1);
    assert ToDecimal(1) == QUANTA_PER_RAW;
    hide FromDecimal, ToDecimal, ComputeCharges;
    assert TradeOk(db.orders, t) && TradeOk(db.orders, t');
    PersistChecksNoSize(db, t, t');
    forall id | id in db.orders ensures OrderOk(System(db, Idle, Idle), id) {
    }
  }
}
