/** The durable ledger: order rows and settlement rows, the guarded writes that change them,
    and two worker loops whose steps interleave with placements, cancels and expiries. */
module LedgerSpec {
  import opened Options
  import opened FastPrices
  import opened Words
  import opened Orders
  import opened CdaSpec
  import opened Charges
  import opened OrderPolicy
  import opened Crossing

  type OrderRows = map<Uuid, TradingOrder>

  /** A booked trade. */
  datatype TradeRow = TradeRow(
    buyOrderId: Uuid,
    sellOrderId: Uuid,
    buyerId: Uuid,
    sellerId: Uuid,
    epochId: Uuid,
    energy: int,
    price: I64,
    total: int,
    charges: SettlementCharges,
    buyerToken: Option<string>,
    sellerToken: Option<string>)

  datatype Db = Db(orders: OrderRows, trades: seq<TradeRow>)

  // ---------- One trade ----------

  /** A batch of matches with the sidecars their metadata positions refer to. */
  datatype MatchBatch = MatchBatch(matches: seq<MatchResult>, buyMetadata: seq<OrderMetadata>, sellMetadata: seq<OrderMetadata>)

  predicate Describes(x: MatchResult, batch: MatchBatch) {
    x.buyMetadataIndex < |batch.buyMetadata| && x.sellMetadataIndex < |batch.sellMetadata|
  }

  /** The row a match is booked as: its gross at the settle price, split at the billed rates. */
  function TradeOf(x: MatchResult, batch: MatchBatch, rates: ChargeRates): TradeRow
    requires Describes(x, batch)
  {
    var total := x.matchAmount * x.settlePrice;
    TradeRow(x.buyOrderId, x.sellOrderId, x.buyerId, x.sellerId, x.epochId, x.matchAmount, x.settlePrice, total,
             ComputeCharges(total, x.matchAmount, rates), batch.buyMetadata[x.buyMetadataIndex].sessionToken,
             batch.sellMetadata[x.sellMetadataIndex].sessionToken)
  }

  /** Advance a live order's fill; `None` when it is gone or terminal. There is no guard on its
      size. */
  function AdvanceFill(orders: OrderRows, id: Uuid, delta: int): Option<OrderRows> {
    if id !in orders || !orders[id].Live() then None
    else
      var o := orders[id];
      var filled := o.filledAmount + delta;
      Some(orders[id := o.(filledAmount := filled, status := if filled >= o.energyAmount then Filled else PartiallyFilled)])
  }

  /** The trade and both fills commit together, or nothing does. */
  function PersistTrade(db: Db, trade: TradeRow): Option<Db> {
    match AdvanceFill(db.orders, trade.buyOrderId, trade.energy)
    case None => None
    case Some(bought) =>
      match AdvanceFill(bought, trade.sellOrderId, trade.energy)
      case None => None
      case Some(sold) => Some(Db(sold, db.trades + [trade]))
  }

  /** One persist attempt: `reached` is false when the transaction itself fails. */
  function Attempt(db: Db, trade: TradeRow, reached: bool): Db {
    if !reached then db
    else
      match PersistTrade(db, trade)
      case None => db
      case Some(next) => next
  }

  ghost predicate AllDescribed(batch: MatchBatch) {
    forall x :: x in batch.matches ==> Describes(x, batch)
  }

  /** Book the first `n` matches in order; attempt `k` reaches the database when `reached(k)`. */
  function PersistAll(db: Db, batch: MatchBatch, n: nat, rates: ChargeRates, reached: nat -> bool): Db
    requires n <= |batch.matches| && AllDescribed(batch)
  {
    if n == 0 then db
    else Attempt(PersistAll(db, batch, n - 1, rates, reached), TradeOf(batch.matches[n - 1], batch, rates), reached(n - 1))
  }

  // ---------- Other writes ----------

  /** Cancel an immediate order's remainder: the fill is written absolutely, from memory. */
  function SweepOne(orders: OrderRows, o: FastOrder): OrderRows {
    if o.id in orders && orders[o.id].Live()
    then orders[o.id := orders[o.id].(filledAmount := o.filledAmount, status := Cancelled)]
    else orders
  }

  function CancelOrder(orders: OrderRows, id: Uuid, userId: Uuid): OrderRows {
    if id in orders && orders[id].userId == userId && orders[id].Live()
    then orders[id := orders[id].(status := Cancelled)]
    else orders
  }

  /** An order the chain refused to place is cancelled whatever its status. */
  function RefuseOrder(orders: OrderRows, id: Uuid): OrderRows {
    if id in orders then orders[id := orders[id].(status := Cancelled)] else orders
  }

  function ExpireStale(orders: OrderRows, now: I64): OrderRows {
    map id | id in orders ::
      if orders[id].Live() && orders[id].expiresAt.Some? && orders[id].expiresAt.value <= now
      then orders[id].(status := Expired) else orders[id]
  }

  /** The live orders of one side that this mechanism may fill; the auction takes one epoch. */
  ghost predicate IsListing(listing: seq<TradingOrder>, orders: OrderRows, side: OrderSide, segment: MarketSegment, epoch: Uuid) {
    && UniqueOrders(listing)
    && forall o :: o in listing <==> o.id in orders && orders[o.id] == o && Listed(o, side, segment, epoch)
  }

  predicate Listed(o: TradingOrder, side: OrderSide, segment: MarketSegment, epoch: Uuid) {
    o.Live() && o.side == side && o.segment == segment && (segment.Interval? ==> o.epochId == Some(epoch))
  }

  /** Orders whose remainder the cycle says must not rest. */
  function Flagged(orders: seq<FastOrder>, now: I64): seq<FastOrder> {
    if orders == [] then []
    else
      var last := orders[|orders| - 1];
      Flagged(orders[..|orders| - 1], now) + (if MustNotRest(last, now) then [last] else [])
  }

  predicate MustNotRest(o: FastOrder, now: I64) {
    o.timeInForce.IsImmediate() && !o.IsExpired(now) && o.Remaining() > 0
  }

  /** What the continuous cycle cancels: immediate buys, then immediate sells. */
  function SweepList(c: Cycle, now: I64): seq<FastOrder> { Flagged(c.buys, now) + Flagged(c.sells, now) }

  // ---------- The running system ----------

  /** Where a worker is in its cycle: between cycles, with the buys read but not the sells, or
      booking matches and then cancelling remainders. */
  datatype Phase =
    | Idle
    | BuysRead(epoch: Uuid, buys: seq<TradingOrder>)
    | Booking(batch: MatchBatch, sweep: seq<FastOrder>)

  /** The matcher works on realtime orders, the clearing worker on interval orders. */
  datatype System = System(db: Db, matcher: Phase, clearing: Phase) {
    function PhaseOf(segment: MarketSegment): Phase { if segment.Realtime? then matcher else clearing }

    function WithPhase(segment: MarketSegment, phase: Phase): System {
      if segment.Realtime? then this.(matcher := phase) else this.(clearing := phase)
    }

    function WithOrders(orders: OrderRows): System { this.(db := db.(orders := orders)) }
  }

  datatype Step =
    | Place(order: TradingOrder)
    | Cancel(id: Uuid, userId: Uuid)
    | Refuse(id: Uuid)
    | Expire(now: I64)
    | ReadBuys(segment: MarketSegment, epoch: Uuid, buys: seq<TradingOrder>)
    | CrossOrders(segment: MarketSegment, sells: seq<TradingOrder>, topology: Topology, now: I64)
    | Book(segment: MarketSegment, rates: ChargeRates, reached: bool)
    | Sweep(segment: MarketSegment, reached: bool)
    | EndCycle(segment: MarketSegment)

  /** A new order as placement admits it. */
  predicate Fresh(o: TradingOrder) { o.Live() && o.filledAmount == 0 && 0 <= o.energyAmount && o.price > 0 }

  ghost predicate Enabled(s: System, step: Step) {
    match step
    case Place(o) => o.id !in s.db.orders && Fresh(o)
    case ReadBuys(segment, epoch, buys) => s.PhaseOf(segment).Idle? && IsListing(buys, s.db.orders, Buy, segment, epoch)
    case CrossOrders(segment, sells, _, _) =>
      s.PhaseOf(segment).BuysRead? && IsListing(sells, s.db.orders, Sell, segment, s.PhaseOf(segment).epoch)
    case Book(segment, _, _) =>
      s.PhaseOf(segment).Booking? && s.PhaseOf(segment).batch.matches != []
      && Describes(s.PhaseOf(segment).batch.matches[0], s.PhaseOf(segment).batch)
    case Sweep(segment, _) =>
      s.PhaseOf(segment).Booking? && s.PhaseOf(segment).batch.matches == [] && s.PhaseOf(segment).sweep != []
    case _ => true
  }

  /** A cycle's work once both sides are read. */
  function BookingOf(segment: MarketSegment, buys: seq<TradingOrder>, sells: seq<TradingOrder>, topology: Topology, now: I64): Phase {
    Booking(MatchBatch(Cross(segment, buys, sells, topology, now), MetadataOf(buys), MetadataOf(sells)),
            if segment.Realtime? then SweepList(CdaCycle(buys, sells, topology, now), now) else [])
  }

  function Apply(s: System, step: Step): System
    requires Enabled(s, step)
  {
    match step
    case Place(o) => s.WithOrders(s.db.orders[o.id := o])
    case Cancel(id, userId) => s.WithOrders(CancelOrder(s.db.orders, id, userId))
    case Refuse(id) => s.WithOrders(RefuseOrder(s.db.orders, id))
    case Expire(now) => s.WithOrders(ExpireStale(s.db.orders, now))
    case ReadBuys(segment, epoch, buys) => s.WithPhase(segment, BuysRead(epoch, buys))
    case CrossOrders(segment, sells, topology, now) =>
      s.WithPhase(segment, BookingOf(segment, s.PhaseOf(segment).buys, sells, topology, now))
    case Book(segment, rates, reached) =>
      var batch := s.PhaseOf(segment).batch;
      var trade := TradeOf(batch.matches[0], batch, rates);
      s.(db := Attempt(s.db, trade, reached))
       .WithPhase(segment, s.PhaseOf(segment).(batch := batch.(matches := batch.matches[1..])))
    case Sweep(segment, reached) =>
      var phase := s.PhaseOf(segment);
      (if reached then s.WithOrders(SweepOne(s.db.orders, phase.sweep[0])) else s)
        .WithPhase(segment, phase.(sweep := phase.sweep[1..]))
    case EndCycle(segment) => s.WithPhase(segment, Idle)
  }

  /** The empty market. */
  const Empty := System(Db(map[], []), Idle, Idle)

  /** `trace` is a run: each state leads to the next by an enabled step. */
  ghost predicate IsRun(trace: seq<System>, steps: seq<Step>) {
    && |trace| == |steps| + 1
    && forall k :: 0 <= k < |steps| ==> Enabled(trace[k], steps[k]) && trace[k + 1] == Apply(trace[k], steps[k])
  }

  // ---------- What the ledger says of an order ----------

  /** Energy of a trade on the account of order `id`. */
  function Share(t: TradeRow, id: Uuid): int {
    (if t.buyOrderId == id then t.energy else 0) + (if t.sellOrderId == id then t.energy else 0)
  }

  /** Settled energy of an order. */
  function Settled(trades: seq<TradeRow>, id: Uuid): int {
    if trades == [] then 0 else Settled(trades[..|trades| - 1], id) + Share(trades[|trades| - 1], id)
  }

  /** Gross value bought by an order. */
  function Charged(trades: seq<TradeRow>, id: Uuid): int {
    if trades == [] then 0
    else
      var last := trades[|trades| - 1];
      Charged(trades[..|trades| - 1], id) + (if last.buyOrderId == id then last.total else 0)
  }

  /** Energy matched for an order and not yet booked. */
  function Queued(phase: Phase, id: Uuid): int {
    if !phase.Booking? then 0 else BoughtBy(phase.batch.matches, id) + SoldBy(phase.batch.matches, id)
  }
}
