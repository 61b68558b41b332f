/** The services over the durable rows: one matching cycle, one epoch clearing, and the sweep of
    due epochs, each written as the sequence of reads and writes it is. */
module TradingServices {
  import opened Options
  import opened FastPrices
  import opened Words
  import opened Orders
  import opened Ordering
  import opened CdaSpec
  import opened CdaRefinement
  import opened CdaSafety
  import opened CdaEngine
  import opened AuctionSpec
  import opened AuctionSafety
  import opened Auction
  import opened Charges
  import opened OrderPolicy
  import opened Crossing
  import opened LedgerSpec
  import opened LedgerTheorems

  // ---------- What a whole cycle writes ----------

  /** Cancel remainders from position `k` until a write fails. */
  function SweepUntil(orders: OrderRows, sweep: seq<FastOrder>, k: nat, reached: nat -> bool): OrderRows
    requires k <= |sweep|
    decreases |sweep| - k
  {
    if k == |sweep| || !reached(k) then orders
    else SweepUntil(SweepOne(orders, sweep[k]), sweep, k + 1, reached)
  }

  /** Book every match of a cycle, then cancel its remainders. */
  function CycleWrites(db: Db, phase: Phase, rates: ChargeRates, booked: nat -> bool, swept: nat -> bool): Db
    requires phase.Booking? && AllDescribed(phase.batch)
  {
    var after := PersistAll(db, phase.batch, |phase.batch.matches|, rates, booked);
    Db(SweepUntil(after.orders, phase.sweep, 0, swept), after.trades)
  }

  lemma CrossDescribed(segment: MarketSegment, buys: seq<TradingOrder>, sells: seq<TradingOrder>, topology: Topology, now: I64)
    requires Placed(buys) && Placed(sells)
    ensures AllDescribed(BookingOf(segment, buys, sells, topology, now).batch)
  {
    CrossIsGood(segment, buys, sells, topology, now);
    hide Cross, Placed, CdaCycle, SweepList, FromDecimal;
    forall x | x in Cross(segment, buys, sells, topology, now)
      ensures Describes(x, BookingOf(segment, buys, sells, topology, now).batch)
    {
      var buy, sell := FairMatchNames(x, buys, sells);
    }
  }

  // ---------- A sequential cycle is a run of the system ----------

  function Resting(db: Db): System { System(db, Idle, Idle) }

  /** The state after `n` matches of a cycle are booked. */
  function AfterBooking(db: Db, segment: MarketSegment, phase: Phase, n: nat, rates: ChargeRates, booked: nat -> bool): System
    requires phase.Booking? && AllDescribed(phase.batch) && n <= |phase.batch.matches|
  {
    Resting(PersistAll(db, phase.batch, n, rates, booked))
      .WithPhase(segment, phase.(batch := phase.batch.(matches := phase.batch.matches[n..])))
  }

  lemma BookingStep(db: Db, segment: MarketSegment, phase: Phase, n: nat, rates: ChargeRates, booked: nat -> bool)
    requires phase.Booking? && AllDescribed(phase.batch) && n < |phase.batch.matches|
    ensures var s := AfterBooking(db, segment, phase, n, rates, booked);
      Enabled(s, Book(segment, rates, booked(n)))
      && Apply(s, Book(segment, rates, booked(n))) == AfterBooking(db, segment, phase, n + 1, rates, booked)
  {
    hide Attempt;
    var matches := phase.batch.matches;
    assert matches[n..][1..] == matches[n + 1..] && matches[n..][0] == matches[n] && matches[n] in matches;
  }

  lemma {:induction false} BookingKeepsLedger(db: Db, segment: MarketSegment, phase: Phase, n: nat, rates: ChargeRates, booked: nat -> bool)
    requires phase.Booking? && AllDescribed(phase.batch) && n <= |phase.batch.matches|
    requires LedgerOk(Resting(db).WithPhase(segment, phase))
    ensures LedgerOk(AfterBooking(db, segment, phase, n, rates, booked))
  {
    if n == 0 {
      assert phase.batch.matches[0..] == phase.batch.matches;
    } else {
      BookingKeepsLedger(db, segment, phase, n - 1, rates, booked);
      BookingStep(db, segment, phase, n - 1, rates, booked);
      hide LedgerOk, AfterBooking, Apply;
      StepKeepsLedger(AfterBooking(db, segment, phase, n - 1, rates, booked), Book(segment, rates, booked(n - 1)));
    }
  }

  lemma {:induction false} SweepingKeepsLedger(db: Db, segment: MarketSegment, phase: Phase, k: nat, reached: nat -> bool)
    requires phase.Booking? && phase.batch.matches == [] && k <= |phase.sweep|
    requires LedgerOk(Resting(db).WithPhase(segment, phase.(sweep := phase.sweep[k..])))
    ensures LedgerOk(Resting(Db(SweepUntil(db.orders, phase.sweep, k, reached), db.trades)))
    decreases |phase.sweep| - k
  {
    var s := Resting(db).WithPhase(segment, phase.(sweep := phase.sweep[k..]));
    hide LedgerOk;
    if k == |phase.sweep| || !reached(k) {
      StepKeepsLedger(s, EndCycle(segment));
    } else {
      StepKeepsLedger(s, Step.Sweep(segment, true));
      assert phase.sweep[k..][1..] == phase.sweep[k + 1..];
      SweepingKeepsLedger(Db(SweepOne(db.orders, phase.sweep[k]), db.trades), segment, phase, k + 1, reached);
    }
  }

  /** A cycle's writes, in order, are steps of the running system, so they keep the ledger
      whichever of them fail. */
  lemma CycleKeepsLedger(db: Db, segment: MarketSegment, epoch: Uuid, buys: seq<TradingOrder>, sells: seq<TradingOrder>,
                         topology: Topology, now: I64, rates: ChargeRates, booked: nat -> bool, swept: nat -> bool)
    requires LedgerOk(Resting(db))
    requires IsListing(buys, db.orders, Buy, segment, epoch) && IsListing(sells, db.orders, Sell, segment, epoch)
    ensures Placed(buys) && Placed(sells)
    ensures AllDescribed(BookingOf(segment, buys, sells, topology, now).batch)
    ensures LedgerOk(Resting(CycleWrites(db, BookingOf(segment, buys, sells, topology, now), rates, booked, swept)))
  {
    hide LedgerOk, BookingOf, IsListing, Placed, PersistAll, SweepUntil;
    var s := Resting(db);
    StepKeepsLedger(s, ReadBuys(segment, epoch, buys));
    var read := s.WithPhase(segment, BuysRead(epoch, buys));
    StepKeepsLedger(read, CrossOrders(segment, sells, topology, now));
    ReadsArePlaced(read, segment, sells, topology, now);
    CrossDescribed(segment, buys, sells, topology, now);
    var phase := BookingOf(segment, buys, sells, topology, now);
    BookingIsBooking(segment, buys, sells, topology, now);
    var n := |phase.batch.matches|;
    BookingKeepsLedger(db, segment, phase, n, rates, booked);
    var after := PersistAll(db, phase.batch, n, rates, booked);
    var done := phase.(batch := phase.batch.(matches := []));
    assert phase.batch.matches[n..] == [];
    assert done.(sweep := done.sweep[0..]) == done;
    SweepingKeepsLedger(after, segment, done, 0, swept);
  }

  lemma BookingIsBooking(segment: MarketSegment, buys: seq<TradingOrder>, sells: seq<TradingOrder>, topology: Topology, now: I64)
    ensures BookingOf(segment, buys, sells, topology, now).Booking?
  {
    hide Cross, CdaCycle;
  }

  // ---------- Choosing the remainders to cancel ----------

  /** Orders whose id is in the engine's cancellation list. */
  function WithIds(orders: seq<FastOrder>, ids: set<Uuid>): seq<FastOrder> {
    if orders == [] then []
    else
      var last := orders[|orders| - 1];
      WithIds(orders[..|orders| - 1], ids) + (if last.id in ids then [last] else [])
  }

  lemma {:induction false} UnrestedFrom(orders: seq<FastOrder>, now: I64, id: Uuid)
    requires id in Unrested(orders, now)
    ensures exists o :: o in orders && o.id == id && MustNotRest(o, now)
  {
    var n := |orders| - 1;
    var o := orders[n];
    if o.id == id && MustNotRest(o, now) {
      assert o in orders;
    } else {
      UnrestedFrom(orders[..n], now, id);
      var p :| p in orders[..n] && p.id == id && MustNotRest(p, now);
      assert p in orders;
    }
  }

  /** Picking by id picks exactly the flagged orders, ids being unique over both sides. */
  lemma {:induction false} PickedById(orders: seq<FastOrder>, n: nat, ids: set<Uuid>, now: I64)
    requires n <= |orders| && UniqueIds(orders)
    requires forall i :: 0 <= i < |orders| ==> (orders[i].id in ids <==> MustNotRest(orders[i], now))
    ensures WithIds(orders[..n], ids) == Flagged(orders[..n], now)
  {
    if n > 0 {
      PickedById(orders, n - 1, ids, now);
      assert orders[..n][..n - 1] == orders[..n - 1];
    }
  }

  lemma {:induction false} FlaggedAppend(a: seq<FastOrder>, b: seq<FastOrder>, now: I64)
    ensures Flagged(a + b, now) == Flagged(a, now) + Flagged(b, now)
    decreases |b|
  {
    hide MustNotRest;
    if b == [] {
      assert a + b == a;
    } else {
      FlaggedAppend(a, b[..|b| - 1], now);
      assert (a + b)[..|a + b| - 1] == a + b[..|b| - 1];
    }
  }

  /** The engine's id list picks out exactly the cycle's sweep list. */
  lemma ListPicksSweep(buys: seq<FastOrder>, sells: seq<FastOrder>, now: I64)
    requires UniqueIds(buys + sells)
    ensures var ids := set id | id in Unrested(buys, now) + Unrested(sells, now);
      WithIds(buys + sells, ids) == Flagged(buys, now) + Flagged(sells, now)
  {
    var all := buys + sells;
    var ids := set id | id in Unrested(buys, now) + Unrested(sells, now);
    forall i | 0 <= i < |all|
      ensures all[i].id in ids <==> MustNotRest(all[i], now)
    {
      FlaggedHasId(buys, sells, now, i);
    }
    PickedById(all, |all|, ids, now);
    assert all[..|all|] == all;
    FlaggedAppend(buys, sells, now);
  }

  lemma FlaggedHasId(buys: seq<FastOrder>, sells: seq<FastOrder>, now: I64, i: nat)
    requires UniqueIds(buys + sells) && i < |buys + sells|
    ensures var o := (buys + sells)[i];
      (o.id in Unrested(buys, now) || o.id in Unrested(sells, now)) <==> MustNotRest(o, now)
  {
    hide Unrested;
    var all := buys + sells;
    var o := all[i];
    if MustNotRest(o, now) {
      if i < |buys| { UnrestedHas(buys, now, i); } else { UnrestedHas(sells, now, i - |buys|); }
    } else if o.id in Unrested(buys, now) {
      UnrestedFrom(buys, now, o.id);
      var p :| p in buys && p.id == o.id && MustNotRest(p, now);
      SameIdSame(all, o, p);
    } else if o.id in Unrested(sells, now) {
      UnrestedFrom(sells, now, o.id);
      var p :| p in sells && p.id == o.id && MustNotRest(p, now);
      SameIdSame(all, o, p);
    }
  }

  lemma SameIdSame(orders: seq<FastOrder>, o: FastOrder, p: FastOrder)
    requires UniqueIds(orders) && o in orders && p in orders && o.id == p.id
    ensures o == p
  {
  }

  /** Buys and sells read from the rows have no id in common, before or after a cycle. */
  lemma SidesDisjoint(buys: seq<TradingOrder>, sells: seq<TradingOrder>, topology: Topology, now: I64)
    requires Placed(buys) && Placed(sells)
    requires forall b, l :: b in buys && l in sells ==> b.id != l.id
    ensures UniqueIds(CdaCycle(buys, sells, topology, now).buys + CdaCycle(buys, sells, topology, now).sells)
  {
    hide CycleOutcome, RankBuys, FastOf, Settling, BoughtBy, SoldBy, Sourced, FromDecimal;
    FastPlaced(buys);
    FastPlaced(sells);
    FastRunnable(buys, topology, now);
    var fb, fs, env := FastOf(buys), FastOf(sells), CdaEnv(buys, topology, now);
    CycleConserves(fb, fs, env);
    RankBuysUnique(fb);
    RankBuysSorted(fb);
    var c0, c := Start(fb, fs), CycleOutcome(fb, fs, env, false);
    forall i | 0 <= i < |c.buys| ensures c.buys[i].id == c0.buys[i].id && c0.buys[i] in fb {
      assert FilledWithin(c0.buys[i], c.buys[i]);
    }
    forall j | 0 <= j < |c.sells| ensures c.sells[j].id == fs[j].id && fs[j] in fs {
      assert FilledWithin(fs[j], c.sells[j]);
    }
    forall f, g | f in fb && g in fs ensures f.id != g.id {
      FastFromRead(buys, f);
      FastFromRead(sells, g);
    }
  }

  lemma FastFromRead(orders: seq<TradingOrder>, f: FastOrder)
    requires f in FastOf(orders)
    ensures exists o :: o in orders && o.id == f.id
  {
    hide Settling, FromDecimal;
    var i :| 0 <= i < |FastOf(orders)| && FastOf(orders)[i] == f;
    assert f == FastFrom(Settling(orders)[i], i) && Settling(orders)[i] in orders;
  }

  // ---------- The store ----------

  datatype ClearingSummary = ClearingSummary(
    epochId: Uuid,
    zonesCleared: nat,
    matches: nat,
    totalVolume: int,
    zonePrices: seq<(Zone, I64)>)

  function EmptySummary(epoch: Uuid): ClearingSummary { ClearingSummary(epoch, 0, 0, 0, []) }

  function ZonePrices(zones: seq<ZoneClearing>): seq<(Zone, I64)> {
    seq(|zones|, k requires 0 <= k < |zones| => (zones[k].zone, zones[k].clearingPrice))
  }

  /** What clearing an epoch reports: nothing when there was no match. */
  function SummaryOf(epoch: Uuid, zones: seq<ZoneClearing>): ClearingSummary {
    if Flatten(zones) == [] then EmptySummary(epoch)
    else ClearingSummary(epoch, |zones|, |Flatten(zones)|, TotalCleared(zones), ZonePrices(zones))
  }

  /** Some match in this zone settled at this price. */
  ghost predicate Settles(matches: seq<MatchResult>, zone: Zone, price: I64) {
    exists x :: x in matches && x.buyerZone == zone && x.settlePrice == price
  }

  /** The summary counts these matches, their energy, and one price for each zone they are in. */
  ghost predicate Summarizes(summary: ClearingSummary, epoch: Uuid, matches: seq<MatchResult>) {
    && summary.epochId == epoch && summary.matches == |matches| && summary.totalVolume == Volume(matches)
    && summary.zonesCleared == |summary.zonePrices|
    && (forall x :: x in matches ==> (x.buyerZone, x.settlePrice) in summary.zonePrices)
    && (forall k :: 0 <= k < |summary.zonePrices| ==> Settles(matches, summary.zonePrices[k].0, summary.zonePrices[k].1))
    && (forall i, j :: 0 <= i < j < |summary.zonePrices| ==> ZoneBefore(summary.zonePrices[i].0, summary.zonePrices[j].0))
  }

  lemma {:induction false} VolumeAppend(a: seq<MatchResult>, b: seq<MatchResult>)
    ensures Volume(a + b) == Volume(a) + Volume(b)
    decreases |b|
  {
    if b == [] {
      assert a + b == a;
    } else {
      VolumeAppend(a, b[..|b| - 1]);
      assert (a + b)[..|a + b| - 1] == a + b[..|b| - 1];
    }
  }

  lemma {:induction false} ClearedInTotal(zones: seq<ZoneClearing>)
    requires forall z :: 0 <= z < |zones| ==> zones[z].clearedVolume == Volume(zones[z].matches) && zones[z].matches != []
    ensures TotalCleared(zones) == Volume(Flatten(zones)) && (Flatten(zones) == [] <==> zones == [])
  {
    hide Volume;
    if zones == [] {
      NoVolume();
    } else {
      var n := |zones| - 1;
      ClearedInTotal(zones[..n]);
      VolumeAppend(Flatten(zones[..n]), zones[n].matches);
    }
  }

  lemma {:induction false} FlattenHas(zones: seq<ZoneClearing>, z: nat, x: MatchResult)
    requires z < |zones| && x in zones[z].matches
    ensures x in Flatten(zones)
  {
    if z < |zones| - 1 {
      FlattenHas(zones[..|zones| - 1], z, x);
    }
  }

  lemma NoVolume()
    ensures Volume([]) == 0
  {
  }

  /** The facts about each zone that a summary reports. */
  lemma ZonesReported(buys: seq<TradingOrder>, sells: seq<TradingOrder>, topology: Topology, now: I64)
    ensures var zones := ClearingCycle(buys, sells, topology, now).zones;
      && (forall z :: 0 <= z < |zones| ==> zones[z].clearedVolume == Volume(zones[z].matches) && zones[z].matches != [])
      && ZonesInOrder(zones)
      && (forall z, x :: 0 <= z < |zones| && x in zones[z].matches ==>
            x.buyerZone == zones[z].zone && x.settlePrice == zones[z].clearingPrice)
  {
    hide AuctionOutcome, FastOf, Volume, ZonesInOrder, UnitLoss, Averages;
    FastRunnable(buys, topology, now);
    var fb, fs, env := FastOf(buys), FastOf(sells), ClearingEnv(buys, topology, now);
    ZonesClearRight(fb, fs, env);
    var zones := ClearingCycle(buys, sells, topology, now).zones;
    forall z, x | 0 <= z < |zones| && x in zones[z].matches
      ensures x.buyerZone == zones[z].zone && x.settlePrice == zones[z].clearingPrice
    {
      MatchInItsZone(fb, fs, env, zones[z], x);
      assert ClearedRight(zones[z], topology);
    }
  }

  /** What clearing an epoch reports is what it matched. */
  lemma SummaryIsRight(epoch: Uuid, buys: seq<TradingOrder>, sells: seq<TradingOrder>, topology: Topology, now: I64)
    ensures Summarizes(SummaryOf(epoch, ClearingCycle(buys, sells, topology, now).zones), epoch, Cross(Interval, buys, sells, topology, now))
  {
    hide ClearingCycle, Volume, ZoneBefore, Flatten, TotalCleared;
    var zones := ClearingCycle(buys, sells, topology, now).zones;
    ZonesReported(buys, sells, topology, now);
    ClearedInTotal(zones);
    var matches := Cross(Interval, buys, sells, topology, now);
    var summary := SummaryOf(epoch, zones);
    NoVolume();
    forall x | x in matches ensures (x.buyerZone, x.settlePrice) in summary.zonePrices {
      FlattenedFrom(zones, x);
      var zc :| zc in zones && x in zc.matches;
      var z :| 0 <= z < |zones| && zones[z] == zc;
      assert summary.zonePrices[z] == (x.buyerZone, x.settlePrice);
    }
    forall k | 0 <= k < |summary.zonePrices|
      ensures Settles(matches, summary.zonePrices[k].0, summary.zonePrices[k].1)
    {
      var x := zones[k].matches[0];
      FlattenHas(zones, k, x);
    }
  }

  /** Energy of booked trades. */
  function Traded(trades: seq<TradeRow>): int {
    if trades == [] then 0 else Traded(trades[..|trades| - 1]) + trades[|trades| - 1].energy
  }

  lemma TradedNext(trades: seq<TradeRow>, t: TradeRow)
    ensures Traded(trades + [t]) == Traded(trades) + t.energy
  {
    assert (trades + [t])[..|trades|] == trades;
  }

  /** Booking adds at most the batch's matches and their energy, and exactly those when none is
      lost. */
  lemma {:induction false} BookedWithinBatch(db: Db, batch: MatchBatch, n: nat, rates: ChargeRates, reached: nat -> bool)
    requires n <= |batch.matches| && AllDescribed(batch) && forall x :: x in batch.matches ==> x.matchAmount > 0
    ensures var r := PersistAll(db, batch, n, rates, reached);
      && db.trades <= r.trades && |r.trades| <= |db.trades| + n
      && Traded(r.trades) <= Traded(db.trades) + Volume(batch.matches[..n])
      && (|r.trades| == |db.trades| + n <==> Traded(r.trades) == Traded(db.trades) + Volume(batch.matches[..n]))
  {
    hide PersistAll, Attempt, TradeOf, Traded, Volume;
    if n == 0 {
      NothingPersisted(db, batch, rates, reached);
    } else {
      BookedWithinBatch(db, batch, n - 1, rates, reached);
      PersistNext(db, batch, n, rates, reached);
      var before, x := PersistAll(db, batch, n - 1, rates, reached), batch.matches[n - 1];
      assert x in batch.matches;
      var t := TradeOf(x, batch, rates);
      TradeNames(x, batch, rates);
      TradedNext(before.trades, t);
      AttemptBooks(before, t, reached(n - 1));
    }
  }

  lemma NothingPersisted(db: Db, batch: MatchBatch, rates: ChargeRates, reached: nat -> bool)
    requires AllDescribed(batch)
    ensures PersistAll(db, batch, 0, rates, reached) == db && Volume(batch.matches[..0]) == 0
  {
  }

  lemma PersistNext(db: Db, batch: MatchBatch, n: nat, rates: ChargeRates, reached: nat -> bool)
    requires 0 < n <= |batch.matches| && AllDescribed(batch)
    ensures var x := batch.matches[n - 1];
      && Describes(x, batch)
      && PersistAll(db, batch, n, rates, reached)
         == Attempt(PersistAll(db, batch, n - 1, rates, reached), TradeOf(x, batch, rates), reached(n - 1))
      && Volume(batch.matches[..n]) == Volume(batch.matches[..n - 1]) + x.matchAmount
  {
    assert batch.matches[n - 1] in batch.matches;
    assert batch.matches[..n][..n - 1] == batch.matches[..n - 1];
    hide Attempt, TradeOf;
  }

  lemma AttemptBooks(db: Db, t: TradeRow, reached: bool)
    ensures Attempt(db, t, reached).trades == db.trades || Attempt(db, t, reached).trades == db.trades + [t]
  {
  }

  datatype EpochStatus = EpochActive | EpochCleared | EpochSettled

  datatype EpochRow = EpochRow(status: EpochStatus, clearingPrice: Option<I64>, totalVolume: int, matchedOrders: I64)

  type EpochRows = map<Uuid, EpochRow>

  /** An active epoch is closed with its summary; only a single-zone clearing has one price. */
  function CloseEpoch(epochs: EpochRows, summary: ClearingSummary): EpochRows {
    var id := summary.epochId;
    if id in epochs && epochs[id].status.EpochActive?
    then epochs[id := EpochRow(EpochCleared, if |summary.zonePrices| == 1 then Some(summary.zonePrices[0].1) else None,
                               summary.totalVolume, NarrowOrMax(summary.matches))]
    else epochs
  }

  class TradingStore {
    var orders: OrderRows
    var trades: seq<TradeRow>
    var epochs: EpochRows

    constructor ()
      ensures Rows() == Db(map[], []) && epochs == map[]
      ensures LedgerOk(Resting(Rows()))
    {
      orders, trades, epochs := map[], [], map[];
    }

    function Rows(): Db
      reads this`orders, this`trades
    {
      Db(orders, trades)
    }

    /** The guarded incremental fill of one side; false when the order is gone or terminal. */
    method AdvanceOne(id: Uuid, delta: int) returns (live: bool)
      modifies this`orders
      ensures live <==> AdvanceFill(old(orders), id, delta).Some?
      ensures orders == if live then AdvanceFill(old(orders), id, delta).value else old(orders)
    {
      live := id in orders && orders[id].Live();
      if live {
        var o := orders[id];
        var filled := o.filledAmount + delta;
        orders := orders[id := o.(filledAmount := filled, status := if filled >= o.energyAmount then Filled else PartiallyFilled)];
      }
    }

    /** One transaction: the trade, the buyer's fill, the seller's fill; rolled back whole when
        either order is no longer fillable. */
    method PersistMatchedTrade(trade: TradeRow, reached: bool) returns (committed: Option<bool>)
      modifies this`orders, this`trades
      ensures Rows() == Attempt(old(Rows()), trade, reached)
      ensures committed == if reached then Some(PersistTrade(old(Rows()), trade).Some?) else None
    {
      if !reached {
        return None;
      }
      var before := Rows();
      trades := trades + [trade];
      var sides := [trade.buyOrderId, trade.sellOrderId];
      for i := 0 to 2
        invariant trades == before.trades + [trade]
        invariant i == 0 ==> orders == before.orders
        invariant i == 1 ==> AdvanceFill(before.orders, sides[0], trade.energy) == Some(orders)
        invariant i == 2 ==> PersistTrade(before, trade) == Some(Rows())
      {
        var live := AdvanceOne(sides[i], trade.energy);
        if !live {
          orders, trades := before.orders, before.trades;
          return Some(false);
        }
      }
      committed := Some(true);
    }

    /** Book each match of a cycle; a failed or refused one is skipped. */
    method PersistMatches(batch: MatchBatch, rates: ChargeRates, reached: nat -> bool)
      requires AllDescribed(batch)
      modifies this`orders, this`trades
      ensures Rows() == PersistAll(old(Rows()), batch, |batch.matches|, rates, reached)
    {
      hide Attempt;
      var i := 0;
      while i < |batch.matches|
        invariant i <= |batch.matches|
        invariant Rows() == PersistAll(old(Rows()), batch, i, rates, reached)
      {
        var x := batch.matches[i];
        assert Describes(x, batch);
        var committed := PersistMatchedTrade(TradeOf(x, batch, rates), reached(i));
        i := i + 1;
      }
    }

    /** Cancel the remainders the engine listed, with the fill it left in memory; a failed write
        ends the sweep. */
    method CancelIocRemainders(stats: CycleStats, buys: seq<FastOrder>, sells: seq<FastOrder>, reached: nat -> bool)
      returns (ok: bool)
      modifies this`orders
      ensures var picked := WithIds(buys + sells, set id | id in stats.iocCancellations);
        orders == SweepUntil(old(orders), picked, 0, reached)
    {
      var ids := set id | id in stats.iocCancellations;
      var all := buys + sells;
      ghost var picked := WithIds(all, ids);
      assert all[..|all|] == all;
      var done := 0;
      for i := 0 to |all|
        invariant done == |WithIds(all[..i], ids)| && WithIds(all[..i], ids) <= picked
        invariant SweepUntil(orders, picked, done, reached) == SweepUntil(old(orders), picked, 0, reached)
      {
        assert all[..i + 1][..i] == all[..i];
        PickedPrefix(all, i + 1, ids);
        if all[i].id in ids {
          if !reached(done) {
            return false;
          }
          assert picked[done] == all[i];
          orders := SweepOne(orders, all[i]);
          done := done + 1;
        }
      }
      ok := true;
    }

    /** The live orders of one side, in whatever order the database returns them. */
    method ActiveOrders(side: OrderSide) returns (listing: seq<TradingOrder>)
      requires forall id :: id in orders ==> orders[id].id == id
      ensures UniqueOrders(listing)
      ensures forall o :: o in listing <==> o.id in orders && orders[o.id] == o && o.Live() && o.side == side
    {
      listing := [];
      var left := orders.Keys;
      while left != {}
        invariant left <= orders.Keys
        invariant UniqueOrders(listing)
        invariant forall o :: o in listing <==> o.id in orders && o.id !in left && orders[o.id] == o && o.Live() && o.side == side
        decreases |left|
      {
        var id :| id in left;
        left := left - {id};
        if orders[id].Live() && orders[id].side == side {
          listing := listing + [orders[id]];
        }
      }
    }

    /** Active orders of the segment, and for the auction of the epoch. */
    method SegmentOrders(side: OrderSide, segment: MarketSegment, epoch: Uuid) returns (listing: seq<TradingOrder>)
      requires forall id :: id in orders ==> orders[id].id == id
      ensures IsListing(listing, orders, side, segment, epoch)
    {
      var active := ActiveOrders(side);
      listing := [];
      for i := 0 to |active|
        invariant UniqueOrders(listing)
        invariant forall o :: o in listing <==> o in active[..i] && Listed(o, side, segment, epoch)
      {
        assert active[..i + 1] == active[..i] + [active[i]];
        assert active[i] in active;
        forall o | o in listing ensures o.id != active[i].id {
          assert o in active[..i];
        }
        if Listed(active[i], side, segment, epoch) {
          listing := listing + [active[i]];
        }
      }
      assert active[..|active|] == active;
    }

    /** One matching cycle: read both sides, cross them, book the matches, cancel remainders. The
        rows end as the cycle's writes leave them, and the ledger stays sound. */
    method RunMatchingCycle(topology: Topology, now: I64, rates: ChargeRates, booked: nat -> bool, swept: nat -> bool)
      returns (matched: nat, ghost buys: seq<TradingOrder>, ghost sells: seq<TradingOrder>)
      requires LedgerOk(Resting(Rows()))
      modifies this`orders, this`trades
      ensures IsListing(buys, old(orders), Buy, Realtime, 0) && IsListing(sells, old(orders), Sell, Realtime, 0)
      ensures AllDescribed(BookingOf(Realtime, buys, sells, topology, now).batch)
      ensures Rows() == CycleWrites(old(Rows()), BookingOf(Realtime, buys, sells, topology, now), rates, booked, swept)
      ensures matched == |Cross(Realtime, buys, sells, topology, now)|
      ensures LedgerOk(Resting(Rows()))
    {
      RowsKeyed(Rows());
      hide LedgerOk, OrderOk, IsListing, Placed, CdaCycle, SweepList, Cross, BookingOf, SweepUntil, PersistAll, Unrested, WithIds, FastOf, MetadataOf, AllDescribed;
      var buyOrders := SegmentOrders(Buy, Realtime, 0);
      var sellOrders := SegmentOrders(Sell, Realtime, 0);
      buys, sells := buyOrders, sellOrders;
      CycleKeepsLedger(Rows(), Realtime, 0, buys, sells, topology, now, rates, booked, swept);
      RealtimeBooking(Rows(), buys, sells, topology, now);
      if buyOrders == [] && sellOrders == [] {
        NothingToCross(topology, now);
        NothingBooked(Rows(), MatchBatch([], [], []), rates, booked);
        NothingSwept(orders, swept);
        return 0, buys, sells;
      }
      var results, stats, fastBuys, fastSells, buyMetadata, sellMetadata := CrossRealtime(buyOrders, sellOrders, topology, now);
      var batch := MatchBatch(results, buyMetadata, sellMetadata);
      if results != [] {
        PersistMatches(batch, rates, booked);
      } else {
        NothingBooked(Rows(), batch, rates, booked);
      }
      var ok := CancelIocRemainders(stats, fastBuys, fastSells, swept);
      matched := |results|;
    }

    /** One epoch's clearing; with either side empty, or nothing matched, nothing is written. */
    method RunEpochClearing(epoch: Uuid, topology: Topology, now: I64, rates: ChargeRates, booked: nat -> bool)
      returns (summary: ClearingSummary, ghost buys: seq<TradingOrder>, ghost sells: seq<TradingOrder>)
      requires LedgerOk(Resting(Rows()))
      modifies this`orders, this`trades
      ensures IsListing(buys, old(orders), Buy, Interval, epoch) && IsListing(sells, old(orders), Sell, Interval, epoch)
      ensures AllDescribed(BookingOf(Interval, buys, sells, topology, now).batch)
      ensures Rows() == CycleWrites(old(Rows()), BookingOf(Interval, buys, sells, topology, now), rates, booked, booked)
      ensures summary == SummaryOf(epoch, ClearingCycle(buys, sells, topology, now).zones)
      ensures Summarizes(summary, epoch, Cross(Interval, buys, sells, topology, now))
      ensures LedgerOk(Resting(Rows()))
    {
      RowsKeyed(Rows());
      hide LedgerOk, Summarizes;
      var buyOrders := SegmentOrders(Buy, Interval, epoch);
      var sellOrders := SegmentOrders(Sell, Interval, epoch);
      buys, sells := buyOrders, sellOrders;
      CycleKeepsLedger(Rows(), Interval, epoch, buys, sells, topology, now, rates, booked, booked);
      SummaryIsRight(epoch, buys, sells, topology, now);
      hide IsListing, Placed, ClearingCycle, PersistAll;
      if buyOrders == [] || sellOrders == [] {
        NothingToClear(buys, sells, topology, now);
        return EmptySummary(epoch), buys, sells;
      }
      var zones, stats, buyMetadata, sellMetadata := ClearInterval(buyOrders, sellOrders, topology, now);
      var matches := FlattenZones(zones);
      var batch := MatchBatch(matches, buyMetadata, sellMetadata);
      assert BookingOf(Interval, buys, sells, topology, now).batch == batch;
      if matches == [] {
        NothingBooked(Rows(), batch, rates, booked);
        return EmptySummary(epoch), buys, sells;
      }
      PersistMatches(batch, rates, booked);
      summary := ClearingSummary(epoch, |zones|, stats.matchesCreated, stats.totalVolume, ZonePrices(zones));
    }

    /** Clear and close every due epoch, one summary each, even when nothing matched. The rows go
        through one state per epoch, each the clearing of the next epoch over the one before. */
    method ClearDueEpochs(due: seq<Uuid>, topology: Topology, now: nat -> I64, rates: ChargeRates, booked: (nat, nat) -> bool)
      returns (summaries: seq<ClearingSummary>, ghost states: seq<Db>)
      requires LedgerOk(Resting(Rows()))
      modifies this
      ensures |states| == |due| + 1 && states[0] == old(Rows()) && states[|due|] == Rows()
      ensures |summaries| == |due|
      ensures forall k :: 0 <= k < |due| ==>
        ClearsInto(states[k], states[k + 1], due[k], topology, now(k), rates, OfEpoch(booked, k), summaries[k])
      ensures epochs == ClosedBy(old(epochs), summaries)
      ensures LedgerOk(Resting(Rows()))
    {
      hide LedgerOk, CloseEpoch, ClearsInto, Summarizes, IsListing, AllDescribed, SummaryOf, CycleWrites, BookingOf, ClearingCycle, OfEpoch;
      summaries, states := [], [Rows()];
      for k := 0 to |due|
        invariant |summaries| == k && |states| == k + 1 && states[0] == old(Rows()) && states[k] == Rows()
        invariant forall i :: 0 <= i < k ==>
          ClearsInto(states[i], states[i + 1], due[i], topology, now(i), rates, OfEpoch(booked, i), summaries[i])
        invariant epochs == ClosedBy(old(epochs), summaries)
        invariant LedgerOk(Resting(Rows()))
      {
        var summary, buys, sells := RunEpochClearing(due[k], topology, now(k), rates, OfEpoch(booked, k));
        ClearedInto(states[k], Rows(), due[k], buys, sells, topology, now(k), rates, OfEpoch(booked, k), summary);
        epochs := CloseEpoch(epochs, summary);
        assert (summaries + [summary])[..k] == summaries;
        summaries, states := summaries + [summary], states + [Rows()];
      }
    }
  }

  /** The persist outcomes of the `k`th epoch cleared. */
  function OfEpoch(booked: (nat, nat) -> bool, k: nat): nat -> bool { (n: nat) => booked(k, n) }

  /** The rows `after` are those left by clearing the epoch's live interval orders in `before`,
      and this is the summary of that clearing. */
  ghost predicate ClearsInto(before: Db, after: Db, epoch: Uuid, topology: Topology, now: I64, rates: ChargeRates,
                             booked: nat -> bool, summary: ClearingSummary)
  {
    exists buys, sells ::
      && IsListing(buys, before.orders, Buy, Interval, epoch) && IsListing(sells, before.orders, Sell, Interval, epoch)
      && AllDescribed(BookingOf(Interval, buys, sells, topology, now).batch)
      && after == CycleWrites(before, BookingOf(Interval, buys, sells, topology, now), rates, booked, booked)
      && summary == SummaryOf(epoch, ClearingCycle(buys, sells, topology, now).zones)
  }

  lemma ClearedInto(before: Db, after: Db, epoch: Uuid, buys: seq<TradingOrder>, sells: seq<TradingOrder>, topology: Topology,
                    now: I64, rates: ChargeRates, booked: nat -> bool, summary: ClearingSummary)
    requires IsListing(buys, before.orders, Buy, Interval, epoch) && IsListing(sells, before.orders, Sell, Interval, epoch)
    requires AllDescribed(BookingOf(Interval, buys, sells, topology, now).batch)
    requires after == CycleWrites(before, BookingOf(Interval, buys, sells, topology, now), rates, booked, booked)
    requires summary == SummaryOf(epoch, ClearingCycle(buys, sells, topology, now).zones)
    ensures ClearsInto(before, after, epoch, topology, now, rates, booked, summary)
  {
    hide IsListing, CycleWrites, BookingOf, AllDescribed, SummaryOf;
  }

  // ---------- Facts the services use ----------

  function ClosedBy(epochs: EpochRows, summaries: seq<ClearingSummary>): EpochRows {
    if summaries == [] then epochs
    else CloseEpoch(ClosedBy(epochs, summaries[..|summaries| - 1]), summaries[|summaries| - 1])
  }

  /** Closing is idempotent: an active epoch takes the first summary made for it and keeps it,
      with that zone's price exactly when one zone cleared; no epoch summarised is left active,
      and no other is touched. */
  lemma {:induction false} EpochsCloseOnce(epochs: EpochRows, summaries: seq<ClearingSummary>, id: Uuid)
    requires id in epochs
    ensures id in ClosedBy(epochs, summaries)
    ensures (forall k :: 0 <= k < |summaries| ==> summaries[k].epochId != id) || !epochs[id].status.EpochActive?
      ==> ClosedBy(epochs, summaries)[id] == epochs[id]
    ensures forall k :: FirstFor(summaries, k, id) && epochs[id].status.EpochActive? ==>
      var row, prices := ClosedBy(epochs, summaries)[id], summaries[k].zonePrices;
      && row.status.EpochCleared? && row.totalVolume == summaries[k].totalVolume
      && (row.clearingPrice.Some? <==> |prices| == 1) && (|prices| == 1 ==> row.clearingPrice == Some(prices[0].1))
      && (row.matchedOrders == summaries[k].matches || (row.matchedOrders == I64_MAX < summaries[k].matches))
  {
    if summaries != [] {
      EpochsCloseOnce(epochs, summaries[..|summaries| - 1], id);
      forall k | FirstFor(summaries, k, id) && k < |summaries| - 1
        ensures FirstFor(summaries[..|summaries| - 1], k, id)
      {
      }
    }
  }

  /** Summary `k` is the first made for the epoch. */
  ghost predicate FirstFor(summaries: seq<ClearingSummary>, k: int, id: Uuid) {
    0 <= k < |summaries| && summaries[k].epochId == id && forall i :: 0 <= i < k ==> summaries[i].epochId != id
  }

  lemma RowsKeyed(db: Db)
    requires LedgerOk(Resting(db))
    ensures forall id :: id in db.orders ==> db.orders[id].id == id
  {
    hide TradeOk, Settled, Queued;
    forall id | id in db.orders ensures db.orders[id].id == id {
      assert OrderOk(Resting(db), id);
    }
  }

  lemma {:induction false} PickedPrefix(all: seq<FastOrder>, n: nat, ids: set<Uuid>)
    requires n <= |all|
    ensures WithIds(all[..n], ids) <= WithIds(all, ids)
    decreases |all| - n
  {
    if n == |all| {
      assert all[..n] == all;
    } else {
      PickedPrefix(all, n + 1, ids);
      assert all[..n + 1][..n] == all[..n];
    }
  }

  lemma SidesApart(buys: seq<TradingOrder>, sells: seq<TradingOrder>, orders: OrderRows, epoch: Uuid)
    requires IsListing(buys, orders, Buy, Realtime, epoch) && IsListing(sells, orders, Sell, Realtime, epoch)
    ensures forall b, l :: b in buys && l in sells ==> b.id != l.id
  {
  }

  lemma NothingBooked(db: Db, batch: MatchBatch, rates: ChargeRates, reached: nat -> bool)
    requires batch.matches == [] && AllDescribed(batch)
    ensures PersistAll(db, batch, 0, rates, reached) == db
  {
  }

  lemma NothingSwept(orders: OrderRows, reached: nat -> bool)
    ensures SweepUntil(orders, [], 0, reached) == orders
  {
  }

  /** What a matching cycle over two listings books and cancels, as the engine reports it. */
  lemma RealtimeBooking(db: Db, buys: seq<TradingOrder>, sells: seq<TradingOrder>, topology: Topology, now: I64)
    requires Placed(buys) && Placed(sells)
    requires IsListing(buys, db.orders, Buy, Realtime, 0) && IsListing(sells, db.orders, Sell, Realtime, 0)
    ensures var c := CdaCycle(buys, sells, topology, now);
      var ids := Unrested(c.buys, now) + Unrested(c.sells, now);
      && Cross(Realtime, buys, sells, topology, now) == c.matches
      && BookingOf(Realtime, buys, sells, topology, now)
         == Booking(MatchBatch(c.matches, MetadataOf(buys), MetadataOf(sells)), WithIds(c.buys + c.sells, set id | id in ids))
  {
    hide IsListing, Placed, CdaCycle, Flagged, Unrested, WithIds, UniqueIds;
    var c := CdaCycle(buys, sells, topology, now);
    SidesApart(buys, sells, db.orders, 0);
    SidesDisjoint(buys, sells, topology, now);
    ListPicksSweep(c.buys, c.sells, now);
  }

  lemma NothingToCross(topology: Topology, now: I64)
    ensures BookingOf(Realtime, [], [], topology, now) == Booking(MatchBatch([], [], []), [])
  {
  }

  lemma {:induction false} NoSupplyClearsNothing(c: AuctionCycle, demand: seq<ZoneGroup>, env: AuctionEnv)
    requires Auctionable(c.buys, env) && GroupsWithin(demand, |c.buys|)
    ensures GroupsWithin([], |c.sells|) && ClearGroups(c, demand, [], env) == c
    decreases |demand|
  {
    if demand != [] {
      NoSupplyClearsNothing(c, demand[1..], env);
    }
  }

  lemma NothingToClear(buys: seq<TradingOrder>, sells: seq<TradingOrder>, topology: Topology, now: I64)
    requires buys == [] || sells == []
    ensures ClearingCycle(buys, sells, topology, now).zones == []
    ensures BookingOf(Interval, buys, sells, topology, now).batch.matches == []
  {
    var fb, env := FastOf(buys), ClearingEnv(buys, topology, now);
    FastRunnable(buys, topology, now);
    if buys != [] {
      PartitionWithin(fb, |fb|, now);
      NoSupplyClearsNothing(AuctionCycle(fb, [], []), Partition(fb, |fb|, now), env);
    }
  }

  method FlattenZones(zones: seq<ZoneClearing>) returns (matches: seq<MatchResult>)
    ensures matches == Flatten(zones)
  {
    matches := [];
    for z := 0 to |zones|
      invariant matches == Flatten(zones[..z])
    {
      assert zones[..z + 1][..z] == zones[..z];
      matches := matches + zones[z].matches;
    }
    assert zones[..|zones|] == zones;
  }

  /** Convert both sides and run the continuous engine on them in place. */
  method CrossRealtime(buyOrders: seq<TradingOrder>, sellOrders: seq<TradingOrder>, topology: Topology, now: I64)
    returns (results: seq<MatchResult>, stats: CycleStats, buys: seq<FastOrder>, sells: seq<FastOrder>,
             buyMetadata: seq<OrderMetadata>, sellMetadata: seq<OrderMetadata>)
    requires Placed(buyOrders) && Placed(sellOrders)
    ensures var c := CdaCycle(buyOrders, sellOrders, topology, now);
      && results == c.matches && buys == c.buys && sells == c.sells
      && stats.iocCancellations == Unrested(c.buys, now) + Unrested(c.sells, now)
    ensures buyMetadata == MetadataOf(buyOrders) && sellMetadata == MetadataOf(sellOrders)
  {
    hide Settling, CycleOutcome, RankBuys, Unrested;
    var fastBuys, fastSells;
    fastBuys, buyMetadata := ToFastOrders(buyOrders);
    fastSells, sellMetadata := ToFastOrders(sellOrders);
    FastPlaced(sellOrders);
    FastRunnable(buyOrders, topology, now);
    var b := new FastOrder[|fastBuys|](i requires 0 <= i < |fastBuys| => fastBuys[i]);
    var s := new FastOrder[|fastSells|](i requires 0 <= i < |fastSells| => fastSells[i]);
    assert b[..] == fastBuys && s[..] == fastSells;
    results, stats := MatchCycle(b, s, buyMetadata, topology, FACTOR, now);
    buys, sells := b[..], s[..];
  }

  /** Convert both sides and run the auction on them in place. */
  method ClearInterval(buyOrders: seq<TradingOrder>, sellOrders: seq<TradingOrder>, topology: Topology, now: I64)
    returns (zones: seq<ZoneClearing>, stats: CycleStats, buyMetadata: seq<OrderMetadata>, sellMetadata: seq<OrderMetadata>)
    ensures zones == ClearingCycle(buyOrders, sellOrders, topology, now).zones
    ensures stats == CycleStats(|Flatten(zones)|, TotalCleared(zones), [])
    ensures buyMetadata == MetadataOf(buyOrders) && sellMetadata == MetadataOf(sellOrders)
  {
    hide Settling, AuctionOutcome;
    var fastBuys, fastSells;
    fastBuys, buyMetadata := ToFastOrders(buyOrders);
    fastSells, sellMetadata := ToFastOrders(sellOrders);
    FastRunnable(buyOrders, topology, now);
    var b := new FastOrder[|fastBuys|](i requires 0 <= i < |fastBuys| => fastBuys[i]);
    var s := new FastOrder[|fastSells|](i requires 0 <= i < |fastSells| => fastSells[i]);
    assert b[..] == fastBuys && s[..] == fastSells;
    zones, stats := ClearCycle(b, s, AuctionEnv(topology, now, buyMetadata));
  }
}
