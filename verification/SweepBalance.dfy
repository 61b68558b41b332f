/** When a cancelled immediate order's row agrees with its settlements: exactly when everything
    the engine filled for it was booked, or its cancellation never landed. */
module SweepBalance {
  import opened Options
  import opened FastPrices
  import opened Words
  import opened Orders
  import opened Ordering
  import opened Pricing
  import opened CdaSpec
  import opened CdaRefinement
  import opened CdaSafety
  import opened CdaEngine
  import opened Charges
  import opened OrderPolicy
  import opened Crossing
  import opened LedgerSpec
  import opened LedgerTheorems
  import opened TradingServices
  import opened CycleRuns

  // ---------- What was booked ----------

  /** Match `k` of the cycle was committed. */
  predicate CommittedAt(db: Db, batch: MatchBatch, rates: ChargeRates, booked: nat -> bool, k: nat)
    requires k < |batch.matches| && AllDescribed(batch)
  {
    booked(k) && PersistTrade(PersistAll(db, batch, k, rates, booked), TradeOf(batch.matches[k], batch, rates)).Some?
  }

  predicate Involves(x: MatchResult, id: Uuid) { x.buyOrderId == id || x.sellOrderId == id }

  /** Every match of the order was committed. */
  ghost predicate AllCommitted(db: Db, batch: MatchBatch, n: nat, rates: ChargeRates, booked: nat -> bool, id: Uuid)
    requires n <= |batch.matches| && AllDescribed(batch)
  {
    forall k :: 0 <= k < n && Involves(batch.matches[k], id) ==> CommittedAt(db, batch, rates, booked, k)
  }

  /** Energy of the first `n` matches of the order. */
  function Matched(matches: seq<MatchResult>, n: nat, id: Uuid): int
    requires n <= |matches|
  {
    BoughtBy(matches[..n], id) + SoldBy(matches[..n], id)
  }

  /** How far booking the first `n` matches of a cycle has brought one order: its fill and its
      settlements moved together, by what its committed matches carried. */
  ghost predicate BookedTo(db: Db, batch: MatchBatch, n: nat, rates: ChargeRates, booked: nat -> bool, id: Uuid, sum: int)
    requires n <= |batch.matches| && AllDescribed(batch) && id in db.orders
  {
    var r := PersistAll(db, batch, n, rates, booked);
    && id in r.orders && r.orders[id].SameOrder(db.orders[id])
    && r.orders[id].filledAmount == db.orders[id].filledAmount + sum
    && Settled(r.trades, id) == Settled(db.trades, id) + sum
    && sum <= Matched(batch.matches, n, id)
    && (sum == Matched(batch.matches, n, id) <==> AllCommitted(db, batch, n, rates, booked, id))
    && (r.orders[id].filledAmount < r.orders[id].energyAmount ==> r.orders[id].Live())
  }

  /** A trade leaves the orders it fills live exactly while they are not full. */
  lemma CommittedStaysLive(db: Db, t: TradeRow, id: Uuid)
    requires TradeOk(db.orders, t) && PersistTrade(db, t).Some? && id in db.orders
    requires db.orders[id].filledAmount < db.orders[id].energyAmount ==> db.orders[id].Live()
    requires 0 <= Share(t, id)
    ensures id in PersistTrade(db, t).value.orders
    ensures var o := PersistTrade(db, t).value.orders[id]; o.filledAmount < o.energyAmount ==> o.Live()
  {
    hide FromDecimal;
  }

  lemma MatchedNext(matches: seq<MatchResult>, n: nat, id: Uuid)
    requires n < |matches|
    ensures Matched(matches, n + 1, id) == Matched(matches, n, id)
      + (if matches[n].buyOrderId == id then matches[n].matchAmount else 0)
      + (if matches[n].sellOrderId == id then matches[n].matchAmount else 0)
  {
    assert matches[..n + 1][..n] == matches[..n];
  }

  lemma AllCommittedNext(db: Db, batch: MatchBatch, n: nat, rates: ChargeRates, booked: nat -> bool, id: Uuid)
    requires n < |batch.matches| && AllDescribed(batch)
    ensures AllCommitted(db, batch, n + 1, rates, booked, id)
      <==> AllCommitted(db, batch, n, rates, booked, id)
           && (Involves(batch.matches[n], id) ==> CommittedAt(db, batch, rates, booked, n))
  {
    hide CommittedAt, Involves;
  }

  /** The match about to be booked, in a sound state. */
  lemma NextTradeOk(db: Db, phase: Phase, n: nat, rates: ChargeRates, booked: nat -> bool)
    requires phase.Booking? && AllDescribed(phase.batch) && n < |phase.batch.matches|
    requires LedgerOk(AfterBooking(db, Realtime, phase, n, rates, booked))
    ensures Describes(phase.batch.matches[n], phase.batch)
    ensures TradeOk(PersistAll(db, phase.batch, n, rates, booked).orders, TradeOf(phase.batch.matches[n], phase.batch, rates))
    ensures phase.batch.matches[n].matchAmount > 0
  {
    hide OrderOk, TradeOk, PersistAll;
    var s := AfterBooking(db, Realtime, phase, n, rates, booked);
    assert s.matcher.batch.matches[0] == phase.batch.matches[n];
    HeadTradeOk(s.db.orders, s.matcher, Realtime, rates);
    PhaseNames(s.db.orders, s.matcher, Realtime);
    assert phase.batch.matches[n] in s.matcher.batch.matches;
  }

  lemma {:induction false} BookingMoves(db: Db, phase: Phase, n: nat, rates: ChargeRates, booked: nat -> bool, id: Uuid) returns (sum: int)
    requires phase.Booking? && AllDescribed(phase.batch) && n <= |phase.batch.matches|
    requires LedgerOk(Resting(db).WithPhase(Realtime, phase)) && id in db.orders && db.orders[id].Live()
    ensures BookedTo(db, phase.batch, n, rates, booked, id, sum)
  {
    hide LedgerOk, PersistTrade, TradeOk, CommittedAt, TradeOf;
    if n == 0 {
      sum := 0;
      assert phase.batch.matches[..0] == [];
    } else {
      var batch := phase.batch;
      var before := BookingMoves(db, phase, n - 1, rates, booked, id);
      BookingKeepsLedger(db, Realtime, phase, n - 1, rates, booked);
      NextTradeOk(db, phase, n - 1, rates, booked);
      sum := BookingMovesOne(db, batch, n - 1, rates, booked, id, before);
    }
  }

  lemma BookingMovesOne(db: Db, batch: MatchBatch, n: nat, rates: ChargeRates, booked: nat -> bool, id: Uuid, before: int) returns (sum: int)
    requires AllDescribed(batch) && n < |batch.matches| && id in db.orders
    requires BookedTo(db, batch, n, rates, booked, id, before)
    requires Describes(batch.matches[n], batch) && batch.matches[n].matchAmount > 0
    requires TradeOk(PersistAll(db, batch, n, rates, booked).orders, TradeOf(batch.matches[n], batch, rates))
    ensures BookedTo(db, batch, n + 1, rates, booked, id, sum)
  {
    var mid := PersistAll(db, batch, n, rates, booked);
    var t := TradeOf(batch.matches[n], batch, rates);
    TradeNames(batch.matches[n], batch, rates);
    NextBooked(db, batch, n, rates, booked);
    hide TradeOk, TradeOf, Settled, Matched, AllCommitted, PersistTrade, PersistAll, Attempt, CommittedAt, AllDescribed, Describes, TradingOrder.SameOrder, TradingOrder.Live;
    AttemptMoves(mid, t, booked(n), id);
    ShareNonNegative(mid.orders, t, id);
    MatchedNext(batch.matches, n, id);
    AllCommittedNext(db, batch, n, rates, booked, id);
    SameOrderThrough(db.orders[id], mid.orders[id], PersistAll(db, batch, n + 1, rates, booked).orders[id]);
    assert Share(t, id) > 0 <==> Involves(batch.matches[n], id);
    hide Share, Involves;
    if CommittedAt(db, batch, rates, booked, n) {
      CommittedStaysLive(mid, t, id);
      sum := before + Share(t, id);
    } else {
      sum := before;
    }
  }

  lemma SameOrderThrough(o: TradingOrder, mid: TradingOrder, r: TradingOrder)
    requires mid.SameOrder(o) && r.SameOrder(mid)
    ensures r.SameOrder(o) && r.energyAmount == mid.energyAmount == o.energyAmount
  {
  }

  lemma NextBooked(db: Db, batch: MatchBatch, n: nat, rates: ChargeRates, booked: nat -> bool)
    requires AllDescribed(batch) && n < |batch.matches| && Describes(batch.matches[n], batch)
    ensures var mid, t := PersistAll(db, batch, n, rates, booked), TradeOf(batch.matches[n], batch, rates);
      && PersistAll(db, batch, n + 1, rates, booked) == Attempt(mid, t, booked(n))
      && (CommittedAt(db, batch, rates, booked, n) <==> booked(n) && PersistTrade(mid, t).Some?)
      && (CommittedAt(db, batch, rates, booked, n) ==> Attempt(mid, t, booked(n)) == PersistTrade(mid, t).value)
      && (!CommittedAt(db, batch, rates, booked, n) ==> Attempt(mid, t, booked(n)) == mid)
  {
    hide PersistTrade, TradeOf;
  }

  // ---------- What the engine filled ----------

  lemma OthersBuy(matches: seq<MatchResult>, buys: seq<FastOrder>, sells: seq<FastOrder>, metadata: seq<OrderMetadata>, id: Uuid)
    requires forall x :: x in matches ==> FairMatch(x, buys, sells, metadata)
    ensures (forall i :: 0 <= i < |buys| ==> buys[i].id != id) ==> BoughtBy(matches, id) == 0
    ensures (forall j :: 0 <= j < |sells| ==> sells[j].id != id) ==> SoldBy(matches, id) == 0
  {
    if forall i :: 0 <= i < |buys| ==> buys[i].id != id {
      forall x | x in matches ensures x.buyOrderId != id {
        assert FairMatch(x, buys, sells, metadata);
      }
      NothingBought(matches, id);
    }
    if forall j :: 0 <= j < |sells| ==> sells[j].id != id {
      forall x | x in matches ensures x.sellOrderId != id {
        assert FairMatch(x, buys, sells, metadata);
      }
      NothingSold(matches, id);
    }
  }

  /** The order `t` as the engine leaves it: filled by its matches, on either side. */
  ghost predicate LeftBy(o: FastOrder, t: FastOrder, matches: seq<MatchResult>) {
    o.SameTerms(t) && o.filledAmount == t.filledAmount + BoughtBy(matches, t.id) + SoldBy(matches, t.id)
  }

  lemma CycleLeaves(buys: seq<FastOrder>, sells: seq<FastOrder>, env: Env, o: FastOrder)
    requires UniqueIds(buys) && UniqueIds(sells) && Runnable(RankBuys(buys), env) && env.multiplier >= FACTOR
    requires NonNegativePrices(sells) && WithinSize(buys) && WithinSize(sells)
    requires forall b, l :: b in buys && l in sells ==> b.id != l.id
    ensures var c := CycleOutcome(buys, sells, env, false);
      && (o in c.buys ==> exists t :: t in buys && LeftBy(o, t, c.matches))
      && (o in c.sells ==> exists t :: t in sells && LeftBy(o, t, c.matches))
  {
    hide CycleOutcome, RankBuys, BoughtBy, SoldBy, UniqueIds, FairMatch, LeftBy, NonNegativePrices, WithinSize;
    CdaIsGood(buys, sells, env);
    var c := CycleOutcome(buys, sells, env, false);
    if o in c.buys {
      var t := BuyAdvanced(buys, sells, env, o);
      OthersBuy(c.matches, buys, sells, env.buyMetadata, t.id);
      AdvancedIsLeft(o, t, c.matches);
    }
    if o in c.sells {
      var t := SellAdvanced(buys, sells, env, o);
      OthersBuy(c.matches, buys, sells, env.buyMetadata, t.id);
      AdvancedIsLeft(o, t, c.matches);
    }
  }

  lemma AdvancedIsLeft(o: FastOrder, t: FastOrder, matches: seq<MatchResult>)
    requires FilledWithin(t, o) && o.filledAmount - t.filledAmount == BoughtBy(matches, t.id) + SoldBy(matches, t.id)
    ensures LeftBy(o, t, matches)
  {
    hide BoughtBy, SoldBy;
  }

  lemma BuyAdvanced(buys: seq<FastOrder>, sells: seq<FastOrder>, env: Env, o: FastOrder) returns (t: FastOrder)
    requires UniqueIds(buys) && UniqueIds(sells) && Runnable(RankBuys(buys), env)
    requires o in CycleOutcome(buys, sells, env, false).buys
    ensures t in buys && FilledWithin(t, o)
    ensures o.filledAmount - t.filledAmount == BoughtBy(CycleOutcome(buys, sells, env, false).matches, t.id)
  {
    hide CycleOutcome, RankBuys, BoughtBy, SoldBy, UniqueIds, Sourced, PairsUnique, TotalFilled, Carried, Volume, FilledWithin;
    CycleConserves(buys, sells, env);
    RankBuysSorted(buys);
    var c0, c := Start(buys, sells), CycleOutcome(buys, sells, env, false);
    var j :| 0 <= j < |c.buys| && c.buys[j] == o;
    t := c0.buys[j];
    assert FilledWithin(c0.buys[j], c.buys[j]) && c0.buys[j] in buys;
    KeepsId(t, o);
  }

  lemma SellAdvanced(buys: seq<FastOrder>, sells: seq<FastOrder>, env: Env, o: FastOrder) returns (t: FastOrder)
    requires UniqueIds(buys) && UniqueIds(sells) && Runnable(RankBuys(buys), env)
    requires o in CycleOutcome(buys, sells, env, false).sells
    ensures t in sells && FilledWithin(t, o)
    ensures o.filledAmount - t.filledAmount == SoldBy(CycleOutcome(buys, sells, env, false).matches, t.id)
  {
    hide CycleOutcome, RankBuys, BoughtBy, SoldBy, UniqueIds, Sourced, PairsUnique, TotalFilled, Carried, Volume, FilledWithin;
    CycleConserves(buys, sells, env);
    var c := CycleOutcome(buys, sells, env, false);
    var j :| 0 <= j < |c.sells| && c.sells[j] == o;
    t := sells[j];
    assert FilledWithin(sells[j], c.sells[j]);
    KeepsId(t, o);
  }

  lemma KeepsId(t: FastOrder, o: FastOrder)
    requires FilledWithin(t, o)
    ensures t.id == o.id
  {
  }

  /** A remainder to cancel is a live order of the listing, carrying its durable fill plus all its
      matches of this cycle, and not full. */
  ghost predicate SweptFrom(o: FastOrder, db: Db, matches: seq<MatchResult>) {
    && o.id in db.orders && db.orders[o.id].Live() && db.orders[o.id].energyAmount == o.energyAmount
    && o.filledAmount == db.orders[o.id].filledAmount + Matched(matches, |matches|, o.id)
    && o.filledAmount < o.energyAmount
  }

  lemma ListingApart(db: Db, buys: seq<TradingOrder>, sells: seq<TradingOrder>, epoch: Uuid)
    requires IsListing(buys, db.orders, Buy, Realtime, epoch) && IsListing(sells, db.orders, Sell, Realtime, epoch)
    ensures forall b, l :: b in FastOf(buys) && l in FastOf(sells) ==> b.id != l.id
  {
    hide Settling, FromDecimal;
    SidesApart(buys, sells, db.orders, epoch);
    forall b, l | b in FastOf(buys) && l in FastOf(sells) ensures b.id != l.id {
      FastFromRead(buys, b);
      FastFromRead(sells, l);
    }
  }

  lemma SweepIsFromListing(db: Db, epoch: Uuid, buys: seq<TradingOrder>, sells: seq<TradingOrder>, topology: Topology, now: I64, o: FastOrder)
    requires Placed(buys) && Placed(sells)
    requires IsListing(buys, db.orders, Buy, Realtime, epoch) && IsListing(sells, db.orders, Sell, Realtime, epoch)
    requires o in SweepList(CdaCycle(buys, sells, topology, now), now)
    ensures SweptFrom(o, db, Cross(Realtime, buys, sells, topology, now))
  {
    hide CycleOutcome, RankBuys, FastOf, Settling, BoughtBy, SoldBy, FromDecimal, UniqueIds, IsListing, LeftBy, Placed;
    FastPlaced(buys);
    FastPlaced(sells);
    FastRunnable(buys, topology, now);
    ListingApart(db, buys, sells, epoch);
    var fb, fs, env := FastOf(buys), FastOf(sells), CdaEnv(buys, topology, now);
    var c := CycleOutcome(fb, fs, env, false);
    CycleLeaves(fb, fs, env, o);
    if o in Flagged(c.buys, now) {
      FlaggedFrom(c.buys, now, o);
      var t :| t in fb && LeftBy(o, t, c.matches);
      LeftIsSwept(o, t, buys, db, Buy, epoch, c.matches, now);
    } else {
      FlaggedFrom(c.sells, now, o);
      var t :| t in fs && LeftBy(o, t, c.matches);
      LeftIsSwept(o, t, sells, db, Sell, epoch, c.matches, now);
    }
  }

  lemma LeftIsSwept(o: FastOrder, t: FastOrder, read: seq<TradingOrder>, db: Db, side: OrderSide, epoch: Uuid,
                    matches: seq<MatchResult>, now: I64)
    requires t in FastOf(read) && IsListing(read, db.orders, side, Realtime, epoch)
    requires LeftBy(o, t, matches) && MustNotRest(o, now)
    ensures SweptFrom(o, db, matches)
  {
    hide Settling, FromDecimal, BoughtBy, SoldBy;
    var i :| 0 <= i < |FastOf(read)| && FastOf(read)[i] == t;
    assert t == FastFrom(Settling(read)[i], i) && Settling(read)[i] in read;
    assert matches[..|matches|] == matches;
  }

  // ---------- Cancelling ----------

  ghost predicate SweepsOnce(sweep: seq<FastOrder>) {
    forall i, j :: 0 <= i < j < |sweep| ==> sweep[i].id != sweep[j].id
  }

  lemma {:induction false} FlaggedOnce(orders: seq<FastOrder>, now: I64)
    requires UniqueIds(orders)
    ensures SweepsOnce(Flagged(orders, now))
  {
    if orders != [] {
      var n := |orders| - 1;
      FlaggedOnce(orders[..n], now);
      var rest := Flagged(orders[..n], now);
      forall i | 0 <= i < |rest| ensures rest[i].id != orders[n].id {
        FlaggedFrom(orders[..n], now, rest[i]);
        var k :| 0 <= k < n && orders[..n][k] == rest[i];
      }
    }
  }

  lemma SweepListOnce(buys: seq<TradingOrder>, sells: seq<TradingOrder>, topology: Topology, now: I64)
    requires Placed(buys) && Placed(sells) && forall b, l :: b in buys && l in sells ==> b.id != l.id
    ensures SweepsOnce(SweepList(CdaCycle(buys, sells, topology, now), now))
  {
    hide CdaCycle, Flagged, UniqueIds;
    var c := CdaCycle(buys, sells, topology, now);
    TradingServices.SidesDisjoint(buys, sells, topology, now);
    FlaggedAppend(c.buys, c.sells, now);
    FlaggedOnce(c.buys + c.sells, now);
  }

  /** What cancelling the remainders from `j` on does to the one at `k`: its fill is overwritten
      if every write up to its own lands, and nothing else touches it. */
  lemma {:induction false} SweepReaches(orders: OrderRows, sweep: seq<FastOrder>, j: nat, k: nat, reached: nat -> bool)
    requires j <= |sweep| && k < |sweep| && SweepsOnce(sweep) && sweep[k].id in orders
    ensures var r := SweepUntil(orders, sweep, j, reached); var id := sweep[k].id;
      && id in r
      && (k < j || (exists i :: j <= i <= k && !reached(i)) ==> r[id] == orders[id])
      && (j <= k && (forall i :: j <= i <= k ==> reached(i)) && orders[id].Live() ==>
            r[id] == orders[id].(filledAmount := sweep[k].filledAmount, status := Cancelled))
    decreases |sweep| - j
  {
    if j < |sweep| && reached(j) {
      SweepReaches(SweepOne(orders, sweep[j]), sweep, j + 1, k, reached);
    }
  }

  // ---------- The exact condition ----------

  /** After any cycle of the matcher, whichever of its writes fail, a remainder it set out to
      cancel has a fill equal to its settlements if and only if every match of that order was
      committed, or the cancellation never reached the row. */
  lemma SweptOrderBalances(db: Db, epoch: Uuid, buys: seq<TradingOrder>, sells: seq<TradingOrder>, topology: Topology, now: I64,
                           rates: ChargeRates, booked: nat -> bool, swept: nat -> bool, k: nat)
    requires LedgerOk(Resting(db))
    requires IsListing(buys, db.orders, Buy, Realtime, epoch) && IsListing(sells, db.orders, Sell, Realtime, epoch)
    requires k < |SweepList(CdaCycle(buys, sells, topology, now), now)|
    ensures AllDescribed(BookingOf(Realtime, buys, sells, topology, now).batch)
    ensures var phase := BookingOf(Realtime, buys, sells, topology, now);
      var id := phase.sweep[k].id;
      var r := CycleWrites(db, phase, rates, booked, swept);
      && id in r.orders
      && (r.orders[id].filledAmount == Settled(r.trades, id)
          <==> AllCommitted(db, phase.batch, |phase.batch.matches|, rates, booked, id) || exists i :: 0 <= i <= k && !swept(i))
  {
    hide LedgerOk, IsListing, Placed, PersistAll, SweepUntil, CdaCycle, Flagged, SweptFrom, BookedTo, AllCommitted, SweepsOnce, Settled, Cross, SweepList;
    CycleKeepsLedger(db, Realtime, epoch, buys, sells, topology, now, rates, booked, swept);
    var phase := BookingOf(Realtime, buys, sells, topology, now);
    var o, n := phase.sweep[k], |phase.batch.matches|;
    SweepIsFromListing(db, epoch, buys, sells, topology, now, o);
    SidesApart(buys, sells, db.orders, epoch);
    SweepListOnce(buys, sells, topology, now);
    CrossedLedger(db, epoch, buys, sells, topology, now);
    SweptIsLive(db, o, phase.batch.matches);
    var sum := BookingMoves(db, phase, n, rates, booked, o.id);
    var after := PersistAll(db, phase.batch, n, rates, booked);
    BookedIs(db, phase.batch, rates, booked, o, sum);
    SweepReaches(after.orders, phase.sweep, 0, k, swept);
    BalancedStart(db, o.id);
  }

  lemma SweptIsLive(db: Db, o: FastOrder, matches: seq<MatchResult>)
    requires SweptFrom(o, db, matches)
    ensures o.id in db.orders && db.orders[o.id].Live()
  {
  }

  lemma BalancedStart(db: Db, id: Uuid)
    requires LedgerOk(Resting(db)) && id in db.orders && db.orders[id].Live()
    ensures db.orders[id].filledAmount == Settled(db.trades, id)
  {
    hide TradeOk, Queued, Settled;
    assert OrderOk(Resting(db), id);
  }

  /** The matcher's state once the cycle is crossed is sound. */
  lemma CrossedLedger(db: Db, epoch: Uuid, buys: seq<TradingOrder>, sells: seq<TradingOrder>, topology: Topology, now: I64)
    requires LedgerOk(Resting(db))
    requires IsListing(buys, db.orders, Buy, Realtime, epoch) && IsListing(sells, db.orders, Sell, Realtime, epoch)
    ensures LedgerOk(Resting(db).WithPhase(Realtime, BookingOf(Realtime, buys, sells, topology, now)))
  {
    hide LedgerOk, IsListing, BookingOf;
    StepKeepsLedger(Resting(db), ReadBuys(Realtime, epoch, buys));
    StepKeepsLedger(Resting(db).WithPhase(Realtime, BuysRead(epoch, buys)), CrossOrders(Realtime, sells, topology, now));
  }

  /** Where booking leaves an order about to be cancelled: live, with fill and settlements moved
      by the committed part of what the engine filled. */
  lemma BookedIs(db: Db, batch: MatchBatch, rates: ChargeRates, booked: nat -> bool, o: FastOrder, sum: int)
    requires AllDescribed(batch) && SweptFrom(o, db, batch.matches)
    requires BookedTo(db, batch, |batch.matches|, rates, booked, o.id, sum)
    ensures var r := PersistAll(db, batch, |batch.matches|, rates, booked);
      && o.id in r.orders && r.orders[o.id].Live()
      && r.orders[o.id].filledAmount - Settled(r.trades, o.id) == db.orders[o.id].filledAmount - Settled(db.trades, o.id)
      && (o.filledAmount == r.orders[o.id].filledAmount
          <==> AllCommitted(db, batch, |batch.matches|, rates, booked, o.id))
  {
    hide PersistAll, AllCommitted, Settled, Matched;
  }

  // ---------- It happens ----------

  /** An immediate buy and a smaller resting sell that cross, as placement admits them. */
  ghost predicate LonePair(buy: TradingOrder, sell: TradingOrder, topology: Topology, now: I64) {
    && Fresh(buy) && Fresh(sell) && buy.id != sell.id && buy.userId != sell.userId
    && buy.side.Buy? && sell.side.Sell? && buy.segment.Realtime? && sell.segment.Realtime?
    && buy.epochId.Some? && sell.epochId.Some? && buy.timeInForce.Ioc? && sell.timeInForce.Gtc?
    && MIN_TRADE_AMOUNT <= sell.energyAmount < buy.energyAmount
    && NeverRefuses(topology) && Crosses(FastFrom(buy, 0), FastFrom(sell, 0), Env(topology, FACTOR, now, []))
  }

  lemma FastOfOne(o: TradingOrder)
    requires o.epochId.Some?
    ensures FastOf([o]) == [FastFrom(o, 0)] && |MetadataOf([o])| == 1
  {
    assert [o][..0] == [];
    assert Settling([]) == [];
    assert Settling([o]) == [o];
  }

  /** For every such pair there is a run from the empty market that ends with the immediate
      buy's row ahead of its settlements: place both, run a cycle, lose the booking. */
  lemma FailedPersistUnbalances(buy: TradingOrder, sell: TradingOrder, topology: Topology, now: I64, rates: ChargeRates)
    returns (h: History)
    requires LonePair(buy, sell, topology, now)
    ensures h.Valid() && h.trace[0] == Empty
    ensures buy.id in h.Last().db.orders && Settled(h.Last().db.trades, buy.id) == 0 < h.Last().db.orders[buy.id].filledAmount
  {
    hide LedgerOk, CycleWrites, IsListing, Settled, BookingOf, Crosses, NeverRefuses;
    var placed, db := PlacedPair(buy, sell, 0);
    CycleKeepsLedger(db, Realtime, 0, [buy], [sell], topology, now, rates, Lost, Landed);
    LostCycle(db, buy, sell, topology, now, rates);
    h := CycleIsARun(placed, db, Realtime, 0, [buy], [sell], topology, now, rates, Lost, Landed);
  }

  function Lost(k: nat): bool { false }

  function Landed(k: nat): bool { true }

  /** The cycle over such a pair with every booking lost and every cancellation landing. */
  lemma LostCycle(db: Db, buy: TradingOrder, sell: TradingOrder, topology: Topology, now: I64, rates: ChargeRates)
    requires LonePair(buy, sell, topology, now)
    requires db == Db(map[buy.id := buy, sell.id := sell], [])
    requires AllDescribed(BookingOf(Realtime, [buy], [sell], topology, now).batch)
    ensures var r := CycleWrites(db, BookingOf(Realtime, [buy], [sell], topology, now), rates, Lost, Landed);
      buy.id in r.orders && Settled(r.trades, buy.id) == 0 < r.orders[buy.id].filledAmount
  {
    hide PersistAll, SweepUntil, CdaCycle, Settled, SweepList, Cross, Crosses, NeverRefuses;
    var phase := BookingOf(Realtime, [buy], [sell], topology, now);
    PairIsSwept(buy, sell, topology, now);
    NothingReached(db, phase.batch, |phase.batch.matches|, rates);
    SweepReachesFirst(db.orders, phase.sweep, Landed);
    NothingSettledYet(buy.id);
  }

  lemma NothingSettledYet(id: Uuid)
    ensures Settled([], id) == 0
  {
  }

  lemma SweepReachesFirst(orders: OrderRows, sweep: seq<FastOrder>, reached: nat -> bool)
    requires |sweep| == 1 && sweep[0].id in orders && orders[sweep[0].id].Live() && reached(0)
    ensures sweep[0].id in SweepUntil(orders, sweep, 0, reached)
    ensures SweepUntil(orders, sweep, 0, reached)[sweep[0].id].filledAmount == sweep[0].filledAmount
  {
    SweepReaches(orders, sweep, 0, 0, reached);
  }

  lemma {:induction false} NothingReached(db: Db, batch: MatchBatch, n: nat, rates: ChargeRates)
    requires n <= |batch.matches| && AllDescribed(batch)
    ensures PersistAll(db, batch, n, rates, Lost) == db
  {
    if n > 0 {
      NothingReached(db, batch, n - 1, rates);
    }
  }

  /** Both orders placed, each the whole listing of its side. */
  lemma PlacedPair(buy: TradingOrder, sell: TradingOrder, epoch: Uuid) returns (h: History, db: Db)
    requires Fresh(buy) && Fresh(sell) && buy.id != sell.id && buy.side.Buy? && sell.side.Sell?
    requires buy.segment == sell.segment && (buy.segment.Interval? ==> buy.epochId == sell.epochId == Some(epoch))
    ensures h.EndsIn(Resting(db)) && h.trace[0] == Empty && LedgerOk(Resting(db))
    ensures db == Db(map[buy.id := buy, sell.id := sell], [])
    ensures IsListing([buy], db.orders, Buy, buy.segment, epoch) && IsListing([sell], db.orders, Sell, buy.segment, epoch)
  {
    db := Db(map[buy.id := buy, sell.id := sell], []);
    var start := History([Empty], []);
    var one := Extend(start, Place(buy));
    h := Extend(one, Place(sell));
    assert map[][buy.id := buy][sell.id := sell] == db.orders;
    RunKeepsLedger(h.trace, h.steps, |h.steps|);
  }

  lemma FlaggedOfOne(o: FastOrder, now: I64)
    ensures Flagged([o], now) == if MustNotRest(o, now) then [o] else []
  {
    assert [o][..0] == [];
    assert Flagged([], now) == [];
  }

  /** The cycle over such a pair leaves the buy part filled, and lists it alone for cancelling. */
  lemma PairIsSwept(buy: TradingOrder, sell: TradingOrder, topology: Topology, now: I64)
    requires LonePair(buy, sell, topology, now)
    ensures var sweep := SweepList(CdaCycle([buy], [sell], topology, now), now);
      |sweep| == 1 && sweep[0].id == buy.id && sweep[0].filledAmount > 0
  {
    hide CycleOutcome, RankBuys, LandedCost, FromDecimal, Flagged, FastOf, MetadataOf, NeverRefuses, IsMatchOf;
    FastOfOne(buy);
    FastOfOne(sell);
    FastRunnable([buy], topology, now);
    var fb, fs, env := FastFrom(buy, 0), FastFrom(sell, 0), CdaEnv([buy], topology, now);
    assert Crosses(fb, fs, Guarded(env));
    LonePairTrades(fb, fs, env);
    var c := CycleOutcome([fb], [fs], env, false);
    LoneMatchTrades(c.matches[0], fb, fs, Guarded(env));
    assert c.buys == [c.buys[0]] && c.sells == [c.sells[0]];
    FlaggedOfOne(c.buys[0], now);
    FlaggedOfOne(c.sells[0], now);
  }

  lemma LoneMatchTrades(x: MatchResult, buy: FastOrder, sell: FastOrder, env: Env)
    requires IsMatchOf(x, buy, sell, env)
    ensures x.matchAmount > 0
  {
    hide LandedCost;
  }
}
