/** Where what is in the ledger comes from: which step booked a trade and at what rates, which
    crossing matched it and who could trade then, and which step gave an order its status. */
module LedgerOrigins {
  import opened Options
  import opened FastPrices
  import opened Words
  import opened Orders
  import opened CdaSpec
  import opened CdaSafety
  import opened Charges
  import opened OrderPolicy
  import opened Crossing
  import opened LedgerSpec
  import opened LedgerTheorems

  // ---------- At what rates ----------

  lemma BooksAtTariff(s: System, step: Step)
    requires Enabled(s, step)
    ensures Apply(s, step).db.trades == s.db.trades
      || (step.Book? && exists t :: Apply(s, step).db.trades == s.db.trades + [t] && AtTariff(t.charges, t.total, t.energy, step.rates))
  {
    match step {
      case Book(segment, rates, reached) =>
        var batch := s.PhaseOf(segment).batch;
        var t := TradeOf(batch.matches[0], batch, rates);
        ChargesAtTariff(t.total, t.energy, rates);
        hide AtTariff, ComputeCharges;
      case _ =>
    }
  }

  /** Every booked trade was committed by a booking step, and is charged at that step's rates: the
      fee, the wheeling and the loss of the tariff, and the rest to the seller. */
  lemma {:induction false} TradesAtTariff(trace: seq<System>, steps: seq<Step>, k: nat, n: nat) returns (j: nat)
    requires IsRun(trace, steps) && k <= |steps| && trace[0] == Empty && n < |trace[k].db.trades|
    ensures j < k && steps[j].Book?
    ensures var t, rates := trace[k].db.trades[n], steps[j].rates;
      && AtTariff(t.charges, t.total, t.energy, rates)
      && t.charges.net == t.total * (10_000 - rates.feeBps - rates.lossBps) - t.energy * rates.wheelingRatePerKwh * 10_000_000
  {
    hide Apply, Enabled, AtTariff;
    BooksAtTariff(trace[k - 1], steps[k - 1]);
    if n < |trace[k - 1].db.trades| {
      j := TradesAtTariff(trace, steps, k - 1, n);
    } else {
      j := k - 1;
      var t := trace[k].db.trades[n];
      assert trace[k].db.trades == trace[k - 1].db.trades + [t];
      NetAtTariff(t.charges, t.total, t.energy, steps[j].rates);
    }
  }

  // ---------- Who could trade ----------

  /** Not past its expiry at `now`. */
  ghost predicate Unexpired(o: TradingOrder, now: I64) { o.expiresAt.None? || now < o.expiresAt.value }

  /** The step crossed this segment at a moment when neither of the two orders had expired. */
  ghost predicate CrossedBy(orders: OrderRows, step: Step, segment: MarketSegment, buyId: Uuid, sellId: Uuid) {
    && step.CrossOrders? && step.segment == segment && buyId in orders && sellId in orders
    && Unexpired(orders[buyId], step.now) && Unexpired(orders[sellId], step.now)
  }

  lemma ConvertedExpiry(orders: seq<TradingOrder>, f: FastOrder) returns (o: TradingOrder)
    requires f in FastOf(orders)
    ensures o in orders && o.id == f.id && o.expiresAt == f.expiresAt
  {
    hide Settling, FromDecimal;
    var i :| 0 <= i < |FastOf(orders)| && FastOf(orders)[i] == f;
    o := Settling(orders)[i];
    assert f == FastFrom(o, i) && o in orders;
  }

  /** The step crossed the segment's orders, and the engine made this match of them. */
  ghost predicate MadeBy(s: System, step: Step, x: MatchResult) {
    && step.CrossOrders? && Enabled(s, step)
    && x in Cross(step.segment, s.PhaseOf(step.segment).buys, step.sells, step.topology, step.now)
  }

  /** What a crossing queues is between orders that had not expired. */
  lemma CrossingMatches(s: System, step: Step, x: MatchResult)
    requires LedgerOk(s) && Enabled(s, step) && step.CrossOrders?
    requires x in Cross(step.segment, s.PhaseOf(step.segment).buys, step.sells, step.topology, step.now)
    ensures CrossedBy(s.db.orders, step, step.segment, x.buyOrderId, x.sellOrderId)
  {
    hide Cross, FastOf, Placed, OrderOk, TradeOk, UniqueOrders, UniqueIds, ChargesAddUp;
    var buys := s.PhaseOf(step.segment).buys;
    ReadsArePlaced(s, step.segment, step.sells, step.topology, step.now);
    CrossIsTradeable(step.segment, buys, step.sells, step.topology, step.now, x);
    var b, a :| b in FastOf(buys) && a in FastOf(step.sells) && BetweenTradeable(x, b, a, step.now);
    var buy := ConvertedExpiry(buys, b);
    var sell := ConvertedExpiry(step.sells, a);
    assert ReadOk(s.db.orders, buy, step.segment, s.PhaseOf(step.segment).epoch);
    assert s.db.orders[sell.id] == sell;
  }

  /** A match waiting to be booked was waiting before the step, or the step crossed it. */
  lemma QueueFrom(s: System, step: Step, segment: MarketSegment, x: MatchResult)
    requires LedgerOk(s) && Enabled(s, step)
    requires Apply(s, step).PhaseOf(segment).Booking? && x in Apply(s, step).PhaseOf(segment).batch.matches
    ensures || (s.PhaseOf(segment).Booking? && x in s.PhaseOf(segment).batch.matches)
            || (MadeBy(s, step, x) && CrossedBy(Apply(s, step).db.orders, step, segment, x.buyOrderId, x.sellOrderId))
  {
    hide LedgerOk, Attempt, SweepList, Cross, IsListing, CrossedBy;
    if step.CrossOrders? && step.segment == segment {
      CrossingMatches(s, step, x);
    }
  }

  lemma StepKeepsOrders(s: System, step: Step)
    requires LedgerOk(s) && Enabled(s, step)
    ensures forall id :: id in s.db.orders ==> id in Apply(s, step).db.orders && Apply(s, step).db.orders[id].SameOrder(s.db.orders[id])
  {
    hide LedgerOk, Apply, Enabled;
    forall id | id in s.db.orders ensures id in Apply(s, step).db.orders && Apply(s, step).db.orders[id].SameOrder(s.db.orders[id]) {
      StepKeepsTerminal(s, step, id);
    }
  }

  lemma CrossedStays(orders: OrderRows, orders': OrderRows, step: Step, segment: MarketSegment, buyId: Uuid, sellId: Uuid)
    requires forall id :: id in orders ==> id in orders' && orders'[id].SameOrder(orders[id])
    requires CrossedBy(orders, step, segment, buyId, sellId)
    ensures CrossedBy(orders', step, segment, buyId, sellId)
  {
  }

  /** Every match ever waiting to be booked was made by the engine at a crossing of its segment at
      whose start neither order had expired. */
  lemma {:induction false} QueuedWereTradeable(trace: seq<System>, steps: seq<Step>, k: nat, segment: MarketSegment, x: MatchResult)
    returns (j: nat)
    requires IsRun(trace, steps) && trace[0] == Empty && k <= |steps|
    requires trace[k].PhaseOf(segment).Booking? && x in trace[k].PhaseOf(segment).batch.matches
    ensures j < k && MadeBy(trace[j], steps[j], x) && CrossedBy(trace[k].db.orders, steps[j], segment, x.buyOrderId, x.sellOrderId)
  {
    hide Apply, Enabled, LedgerOk, CrossedBy, MadeBy;
    RunKeepsLedger(trace, steps, k - 1);
    QueueFrom(trace[k - 1], steps[k - 1], segment, x);
    if MadeBy(trace[k - 1], steps[k - 1], x) && CrossedBy(trace[k].db.orders, steps[k - 1], segment, x.buyOrderId, x.sellOrderId) {
      j := k - 1;
    } else {
      j := QueuedWereTradeable(trace, steps, k - 1, segment, x);
      StepKeepsOrders(trace[k - 1], steps[k - 1]);
      CrossedStays(trace[k - 1].db.orders, trace[k].db.orders, steps[j], segment, x.buyOrderId, x.sellOrderId);
    }
  }

  /** The trade is this match: its orders, its energy, and its settle price for all of it. */
  ghost predicate Books(t: TradeRow, x: MatchResult) {
    && t.buyOrderId == x.buyOrderId && t.sellOrderId == x.sellOrderId
    && t.energy == x.matchAmount && t.price == x.settlePrice && t.total == x.matchAmount * x.settlePrice
  }

  /** The step books nothing, or a match from its segment's queue. */
  lemma BooksHead(s: System, step: Step)
    requires Enabled(s, step)
    ensures Apply(s, step).db.trades == s.db.trades
      || (step.Book? && s.PhaseOf(step.segment).Booking?
          && exists t, x :: Apply(s, step).db.trades == s.db.trades + [t] && x in s.PhaseOf(step.segment).batch.matches && Books(t, x))
  {
    match step {
      case Book(segment, rates, reached) =>
        var batch := s.PhaseOf(segment).batch;
        var t := TradeOf(batch.matches[0], batch, rates);
        assert batch.matches[0] in batch.matches && Books(t, batch.matches[0]);
        hide TradeOf;
      case _ =>
    }
  }

  /** Every booked trade is a match the engine made, at its settle price, at a crossing at whose
      start neither of its orders had expired. */
  lemma {:induction false} TradesWereTradeable(trace: seq<System>, steps: seq<Step>, k: nat, n: nat)
    returns (j: nat, segment: MarketSegment, x: MatchResult)
    requires IsRun(trace, steps) && trace[0] == Empty && k <= |steps| && n < |trace[k].db.trades|
    ensures var t := trace[k].db.trades[n];
      && j < k && MadeBy(trace[j], steps[j], x) && Books(t, x)
      && CrossedBy(trace[k].db.orders, steps[j], segment, t.buyOrderId, t.sellOrderId)
  {
    hide Apply, Enabled, LedgerOk, CrossedBy, MadeBy;
    var t := trace[k].db.trades[n];
    RunKeepsLedger(trace, steps, k - 1);
    BooksHead(trace[k - 1], steps[k - 1]);
    if n < |trace[k - 1].db.trades| {
      j, segment, x := TradesWereTradeable(trace, steps, k - 1, n);
    } else {
      segment := steps[k - 1].segment;
      x :| x in trace[k - 1].PhaseOf(segment).batch.matches && Books(t, x);
      j := QueuedWereTradeable(trace, steps, k - 1, segment, x);
    }
    StepKeepsOrders(trace[k - 1], steps[k - 1]);
    CrossedStays(trace[k - 1].db.orders, trace[k].db.orders, steps[j], segment, t.buyOrderId, t.sellOrderId);
  }

  // ---------- What a worker reads, and what it cancels ----------

  /** Still in the book. */
  ghost predicate Open(o: TradingOrder) { o.status == Pending || o.status == Active || o.status == PartiallyFilled }

  /** A listing is exactly the open rows of its side and segment, and at auction of its epoch. */
  lemma ListingIsTheOpenRows(listing: seq<TradingOrder>, orders: OrderRows, side: OrderSide, segment: MarketSegment, epoch: Uuid, o: TradingOrder)
    requires IsListing(listing, orders, side, segment, epoch)
    ensures o in listing <==>
      && o.id in orders && orders[o.id] == o && Open(o) && o.side == side && o.segment == segment
      && (segment == Interval ==> o.epochId == Some(epoch))
  {
  }

  lemma {:induction false} FlaggedExactly(orders: seq<FastOrder>, now: I64, o: FastOrder)
    ensures o in Flagged(orders, now) <==> o in orders && LeftOver(o, now)
  {
    if orders != [] {
      var n := |orders| - 1;
      FlaggedExactly(orders[..n], now, o);
      assert o in orders <==> o in orders[..n] || o == orders[n] by { assert orders == orders[..n] + [orders[n]]; }
    }
  }

  /** After a matching cycle exactly its immediate orders with anything left are cancelled, as the
      engine filled them; one past its expiry is left to expire. */
  lemma SweepIsTheLeftOver(c: Cycle, now: I64, o: FastOrder)
    ensures o in SweepList(c, now) <==> (o in c.buys || o in c.sells) && LeftOver(o, now)
  {
    hide Flagged, LeftOver;
    FlaggedExactly(c.buys, now, o);
    FlaggedExactly(c.sells, now, o);
  }

  // ---------- How an order gets its status ----------

  /** The step commits a trade of this order. */
  ghost predicate Fills(s: System, step: Step, id: Uuid)
    requires Enabled(s, step)
  {
    |Apply(s, step).db.trades| > |s.db.trades|
    && Share(Apply(s, step).db.trades[|s.db.trades|], id) > 0
  }

  /** What a step may make of an order: an open one expires once its time has come, is cancelled
      by its owner, or by the sweep when it is immediate; a refusal cancels any; a booking fills
      it, for good once nothing is left; everything else leaves its status alone. */
  ghost predicate StatusMoves(s: System, step: Step, id: Uuid)
    requires Enabled(s, step) && id in s.db.orders && id in Apply(s, step).db.orders
  {
    var o, o' := s.db.orders[id], Apply(s, step).db.orders[id];
    if step.Expire? && Open(o) && o.expiresAt.Some? && o.expiresAt.value <= step.now then o'.status == Expired
    else if step.Cancel? && Open(o) && step.id == id && step.userId == o.userId then o'.status == Cancelled
    else if step.Refuse? && step.id == id then o'.status == Cancelled
    else if step.Sweep? && Open(o) && step.reached && s.PhaseOf(step.segment).sweep[0].id == id then
      o'.status == Cancelled && (o.timeInForce.Ioc? || o.timeInForce.Fok?)
    else if Fills(s, step, id) then
      Open(o) && o'.filledAmount > o.filledAmount
      && o'.status == if o'.filledAmount >= o.energyAmount then Filled else PartiallyFilled
    else o'.status == o.status
  }

  lemma StepMovesStatus(s: System, step: Step, id: Uuid)
    requires LedgerOk(s) && Enabled(s, step) && id in s.db.orders
    ensures id in Apply(s, step).db.orders && StatusMoves(s, step, id)
  {
    StepKeepsTerminal(s, step, id);
    match step {
      case Book(segment, rates, reached) => BookMovesStatus(s, segment, rates, reached, id);
      case Sweep(segment, reached) => SweepMovesStatus(s, segment, reached, id);
      case _ => hide LedgerOk, IsListing;
    }
  }

  lemma SweepMovesStatus(s: System, segment: MarketSegment, reached: bool, id: Uuid)
    requires LedgerOk(s) && Enabled(s, Sweep(segment, reached)) && id in s.db.orders && id in Apply(s, Sweep(segment, reached)).db.orders
    ensures StatusMoves(s, Sweep(segment, reached), id)
  {
    hide OrderOk, TradeOk;
    assert SweptOk(s.db.orders, s.PhaseOf(segment).sweep[0]);
    hide LedgerOk;
  }

  lemma BookMovesStatus(s: System, segment: MarketSegment, rates: ChargeRates, reached: bool, id: Uuid)
    requires LedgerOk(s) && Enabled(s, Book(segment, rates, reached)) && id in s.db.orders
    requires id in Apply(s, Book(segment, rates, reached)).db.orders
    ensures StatusMoves(s, Book(segment, rates, reached), id)
  {
    var phase := s.PhaseOf(segment);
    HeadTradeOk(s.db.orders, phase, segment, rates);
    var t := TradeOf(phase.batch.matches[0], phase.batch, rates);
    hide LedgerOk, TradeOf, ChargesAddUp;
    AttemptStatus(s.db, t, reached, id);
    hide TradeOk, Attempt;
    assert Apply(s, Book(segment, rates, reached)).db == Attempt(s.db, t, reached);
  }

  lemma AttemptStatus(db: Db, t: TradeRow, reached: bool, id: Uuid)
    requires TradeOk(db.orders, t) && id in db.orders
    ensures var r := Attempt(db, t, reached);
      && id in r.orders && (r.trades == db.trades || r.trades == db.trades + [t])
      && (r.trades == db.trades || Share(t, id) <= 0 ==> r.orders[id].status == db.orders[id].status)
      && (r.trades != db.trades && Share(t, id) > 0 ==>
            && Open(db.orders[id]) && r.orders[id].filledAmount > db.orders[id].filledAmount
            && r.orders[id].status == if r.orders[id].filledAmount >= db.orders[id].energyAmount then Filled else PartiallyFilled)
  {
    hide FromDecimal;
    assert t.buyOrderId != t.sellOrderId && t.energy > 0;
  }

  /** Full, in the two senses the rows record. */
  ghost predicate FullIsFilled(o: TradingOrder) {
    (o.status == Filled ==> o.filledAmount == o.energyAmount) && (Open(o) && o.energyAmount > 0 ==> o.filledAmount < o.energyAmount)
  }

  /** At every moment of every run a filled order is exactly full, and an open one has something
      left: the booking that completes an order is the one that closes it. */
  lemma {:induction false} FilledExactlyWhenFull(trace: seq<System>, steps: seq<Step>, k: nat, id: Uuid)
    requires IsRun(trace, steps) && trace[0] == Empty && k <= |steps| && id in trace[k].db.orders
    ensures FullIsFilled(trace[k].db.orders[id])
  {
    hide LedgerOk, Apply, Enabled, FullIsFilled, StatusMoves;
    var s, step := trace[k - 1], steps[k - 1];
    RunKeepsLedger(trace, steps, k - 1);
    RunKeepsLedger(trace, steps, k);
    if id in s.db.orders {
      FilledExactlyWhenFull(trace, steps, k - 1, id);
      StepMovesStatus(s, step, id);
      StepKeepsTerminal(s, step, id);
      WithinItsSize(trace[k], id);
      StatusKeepsFull(s, step, id);
    } else {
      PlacedIsFresh(s, step, id);
    }
  }

  lemma WithinItsSize(s: System, id: Uuid)
    requires LedgerOk(s) && id in s.db.orders
    ensures s.db.orders[id].filledAmount <= s.db.orders[id].energyAmount
  {
    hide TradeOk, PhaseOk;
    assert OrderOk(s, id);
  }

  lemma PlacedIsFresh(s: System, step: Step, id: Uuid)
    requires Enabled(s, step) && id !in s.db.orders && id in Apply(s, step).db.orders
    ensures FullIsFilled(Apply(s, step).db.orders[id])
  {
  }

  lemma StatusKeepsFull(s: System, step: Step, id: Uuid)
    requires Enabled(s, step) && id in s.db.orders && id in Apply(s, step).db.orders && StatusMoves(s, step, id)
    requires FullIsFilled(s.db.orders[id]) && Apply(s, step).db.orders[id].SameOrder(s.db.orders[id])
    requires Apply(s, step).db.orders[id].filledAmount <= s.db.orders[id].energyAmount
    requires !s.db.orders[id].Live() ==> Apply(s, step).db.orders[id].filledAmount == s.db.orders[id].filledAmount
    ensures FullIsFilled(Apply(s, step).db.orders[id])
  {
  }
}
