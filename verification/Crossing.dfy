/** Domain orders, their conversion for the engines, and what either engine makes of them. */
module Crossing {
  import opened Options
  import opened FastPrices
  import opened Words
  import opened Orders
  import opened CdaSpec
  import opened CdaRefinement
  import opened CdaSafety
  import opened CdaEngine
  import opened AuctionSpec
  import opened AuctionSafety
  import opened OrderPolicy

  datatype OrderStatus = Pending | Active | PartiallyFilled | Filled | Cancelled | Expired

  /** Which mechanism may fill an order: the continuous matcher or the interval auction. */
  datatype MarketSegment = Realtime | Interval

  datatype TradingOrder = TradingOrder(
    id: Uuid,
    userId: Uuid,
    side: OrderSide,
    price: int,
    energyAmount: int,
    filledAmount: int,
    status: OrderStatus,
    timeInForce: TimeInForce,
    segment: MarketSegment,
    zone: Zone,
    epochId: Option<Uuid>,
    createdAt: I64,
    expiresAt: Option<I64>,
    orderPda: Option<string>,
    sessionToken: Option<string>)
  {
    predicate Live() { status.Pending? || status.Active? || status.PartiallyFilled? }

    /** Same order; only its fill and status may differ. */
    predicate SameOrder(other: TradingOrder) {
      this.(filledAmount := other.filledAmount, status := other.status) == other
    }
  }

  ghost predicate UniqueOrders(orders: seq<TradingOrder>) {
    forall i, j :: 0 <= i < j < |orders| ==> orders[i].id != orders[j].id
  }

  // ---------- Conversion for the engines ----------

  function FastFrom(o: TradingOrder, index: nat): FastOrder {
    FastOrder(o.id, o.userId, FromDecimal(o.price), o.energyAmount, o.filledAmount, o.zone, o.createdAt, o.expiresAt,
              o.timeInForce, index)
  }

  function MetadataFrom(o: TradingOrder): OrderMetadata
    requires o.epochId.Some?
  {
    OrderMetadata(o.epochId.value, o.orderPda, o.sessionToken)
  }

  /** The orders that can settle: those of some epoch. */
  function Settling(orders: seq<TradingOrder>): (r: seq<TradingOrder>)
    ensures forall k :: 0 <= k < |r| ==> r[k] in orders && r[k].epochId.Some?
  {
    if orders == [] then []
    else
      var last := orders[|orders| - 1];
      Settling(orders[..|orders| - 1]) + (if last.epochId.Some? then [last] else [])
  }

  function FastOf(orders: seq<TradingOrder>): (r: seq<FastOrder>)
    ensures |r| == |Settling(orders)|
    ensures forall k :: 0 <= k < |r| ==> r[k] == FastFrom(Settling(orders)[k], k)
  {
    seq(|Settling(orders)|, k requires 0 <= k < |Settling(orders)| => FastFrom(Settling(orders)[k], k))
  }

  function MetadataOf(orders: seq<TradingOrder>): (r: seq<OrderMetadata>)
    ensures |r| == |Settling(orders)|
    ensures forall k :: 0 <= k < |r| ==> Settling(orders)[k].epochId.Some? && r[k] == MetadataFrom(Settling(orders)[k])
  {
    seq(|Settling(orders)|, k requires 0 <= k < |Settling(orders)| => MetadataFrom(Settling(orders)[k]))
  }

  /** `f` and its metadata are this order, column by column. */
  ghost predicate Converts(f: FastOrder, metadata: OrderMetadata, o: TradingOrder) {
    && f.id == o.id && f.userId == o.userId && f.zone == o.zone
    && f.price == FromDecimal(o.price) && f.energyAmount == o.energyAmount && f.filledAmount == o.filledAmount
    && f.createdAt == o.createdAt && f.expiresAt == o.expiresAt && f.timeInForce == o.timeInForce
    && o.epochId == Some(metadata.epochId) && metadata.orderPda == o.orderPda && metadata.sessionToken == o.sessionToken
  }

  /** Convert for the engine, building the metadata sidecar alongside: the orders of some epoch,
      in order, each with every column it has and the position of its metadata. */
  method ToFastOrders(orders: seq<TradingOrder>) returns (fast: seq<FastOrder>, metadata: seq<OrderMetadata>)
    ensures fast == FastOf(orders) && metadata == MetadataOf(orders)
    ensures |fast| == |metadata| == |Settling(orders)|
    ensures forall k :: 0 <= k < |fast| ==> Converts(fast[k], metadata[k], Settling(orders)[k]) && fast[k].metadataIndex == k
  {
    fast, metadata := [], [];
    for i := 0 to |orders|
      invariant fast == FastOf(orders[..i]) && metadata == MetadataOf(orders[..i])
    {
      assert orders[..i + 1][..i] == orders[..i];
      var o := orders[i];
      if o.epochId.Some? {
        ghost var before, after := Settling(orders[..i]), Settling(orders[..i + 1]);
        assert after == before + [o];
        fast := fast + [FastFrom(o, |metadata|)];
        metadata := metadata + [MetadataFrom(o)];
      }
    }
    assert orders[..|orders|] == orders;
  }

  lemma {:induction false} SettlingUnique(orders: seq<TradingOrder>)
    requires UniqueOrders(orders)
    ensures UniqueOrders(Settling(orders))
  {
    if orders != [] {
      var n := |orders| - 1;
      SettlingUnique(orders[..n]);
      var rest := Settling(orders[..n]);
      forall i | 0 <= i < |rest| ensures rest[i].id != orders[n].id {
        assert rest[i] in orders[..n];
      }
    }
  }

  /** Every order with an epoch is converted, and no other. */
  lemma {:induction false} SettlingExactly(orders: seq<TradingOrder>, o: TradingOrder)
    ensures o in Settling(orders) <==> o in orders && o.epochId.Some?
  {
    if orders != [] {
      var n := |orders| - 1;
      SettlingExactly(orders[..n], o);
      assert o in orders <==> o in orders[..n] || o == orders[n] by { assert orders == orders[..n] + [orders[n]]; }
    }
  }

  lemma FastUnique(orders: seq<TradingOrder>)
    requires UniqueOrders(orders)
    ensures UniqueIds(FastOf(orders))
  {
    SettlingUnique(orders);
    hide Settling;
    var fast := FastOf(orders);
    forall i, j | 0 <= i < j < |fast| ensures fast[i].id != fast[j].id {
      assert fast[i] == FastFrom(Settling(orders)[i], i) && fast[j] == FastFrom(Settling(orders)[j], j);
    }
  }

  // ---------- Crossing ----------

  function CdaEnv(buys: seq<TradingOrder>, topology: Topology, now: I64): Env {
    Env(topology, FACTOR, now, MetadataOf(buys))
  }

  function ClearingEnv(buys: seq<TradingOrder>, topology: Topology, now: I64): AuctionEnv {
    AuctionEnv(topology, now, MetadataOf(buys))
  }

  lemma FastRunnable(buys: seq<TradingOrder>, topology: Topology, now: I64)
    ensures Runnable(FastOf(buys), CdaEnv(buys, topology, now))
    ensures Runnable(RankBuys(FastOf(buys)), CdaEnv(buys, topology, now))
    ensures Auctionable(FastOf(buys), ClearingEnv(buys, topology, now))
  {
    hide RankBuys, Settling;
    RankBuysKeeps(FastOf(buys), CdaEnv(buys, topology, now));
  }

  /** The continuous cycle over domain orders, at the production multiplier 1.0. */
  function CdaCycle(buys: seq<TradingOrder>, sells: seq<TradingOrder>, topology: Topology, now: I64): Cycle {
    FastRunnable(buys, topology, now);
    CycleOutcome(FastOf(buys), FastOf(sells), CdaEnv(buys, topology, now), false)
  }

  /** The clearing cycle over domain orders. */
  function ClearingCycle(buys: seq<TradingOrder>, sells: seq<TradingOrder>, topology: Topology, now: I64): AuctionCycle {
    FastRunnable(buys, topology, now);
    AuctionOutcome(FastOf(buys), FastOf(sells), ClearingEnv(buys, topology, now))
  }

  /** The segment's matches of these buys and sells. */
  function Cross(segment: MarketSegment, buys: seq<TradingOrder>, sells: seq<TradingOrder>, topology: Topology, now: I64)
    : seq<MatchResult>
  {
    match segment
    case Realtime => CdaCycle(buys, sells, topology, now).matches
    case Interval => Flatten(ClearingCycle(buys, sells, topology, now).zones)
  }

  /** What the ledger relies on, from either engine: fair matches of these orders, within what
      each has left. */
  ghost predicate GoodMatches(matches: seq<MatchResult>, buys: seq<FastOrder>, sells: seq<FastOrder>, metadata: seq<OrderMetadata>) {
    && (forall x :: x in matches ==> FairMatch(x, buys, sells, metadata))
    && (forall i :: 0 <= i < |buys| ==> buys[i].filledAmount + BoughtBy(matches, buys[i].id) <= buys[i].energyAmount)
    && (forall j :: 0 <= j < |sells| ==> sells[j].filledAmount + SoldBy(matches, sells[j].id) <= sells[j].energyAmount)
  }

  ghost predicate WithinSize(orders: seq<FastOrder>) {
    forall i :: 0 <= i < |orders| ==> orders[i].filledAmount <= orders[i].energyAmount
  }

  lemma CdaIsGood(buys: seq<FastOrder>, sells: seq<FastOrder>, env: Env)
    requires UniqueIds(buys) && UniqueIds(sells) && Runnable(RankBuys(buys), env) && env.multiplier >= FACTOR
    requires NonNegativePrices(sells) && WithinSize(buys) && WithinSize(sells)
    ensures GoodMatches(CycleOutcome(buys, sells, env, false).matches, buys, sells, env.buyMetadata)
  {
    hide CycleOutcome, RankBuys, BoughtBy, SoldBy, FairMatch, Sourced, PairsUnique, TotalFilled, Carried, Volume, UniqueIds, NonNegativePrices;
    CdaMatchesFair(buys, sells, env);
    CycleConserves(buys, sells, env);
    var c0, c := Start(buys, sells), CycleOutcome(buys, sells, env, false);
    RankBuysSorted(buys);
    forall i | 0 <= i < |buys| ensures buys[i].filledAmount + BoughtBy(c.matches, buys[i].id) <= buys[i].energyAmount {
      assert buys[i] in c0.buys;
      var j :| 0 <= j < |c0.buys| && c0.buys[j] == buys[i];
      assert FilledWithin(c0.buys[j], c.buys[j]);
    }
    forall j | 0 <= j < |sells| ensures sells[j].filledAmount + SoldBy(c.matches, sells[j].id) <= sells[j].energyAmount {
      assert FilledWithin(sells[j], c.sells[j]);
    }
  }

  lemma AuctionIsGood(buys: seq<FastOrder>, sells: seq<FastOrder>, env: AuctionEnv)
    requires UniqueIds(buys) && UniqueIds(sells) && Auctionable(buys, env) && WithinSize(buys) && WithinSize(sells)
    ensures GoodMatches(Flatten(AuctionOutcome(buys, sells, env).zones), buys, sells, env.metadata)
  {
    AuctionConserves(buys, sells, env);
    hide AuctionOutcome, BoughtBy, SoldBy, FairMatch, Flatten;
    var c := AuctionOutcome(buys, sells, env);
    var matches := Flatten(c.zones);
    forall x | x in matches ensures FairMatch(x, buys, sells, env.metadata) {
      AuctionMatchesFair(buys, sells, env, x);
    }
    forall i | 0 <= i < |buys| ensures buys[i].filledAmount + BoughtBy(matches, buys[i].id) <= buys[i].energyAmount {
      assert FilledWithin(buys[i], c.buys[i]);
    }
    forall j | 0 <= j < |sells| ensures sells[j].filledAmount + SoldBy(matches, sells[j].id) <= sells[j].energyAmount {
      assert FilledWithin(sells[j], c.sells[j]);
    }
  }

  /** Whichever mechanism crosses them, every match is of two of these orders that could trade at
      `now`; the auction's are of one zone. */
  lemma CrossIsTradeable(segment: MarketSegment, buys: seq<TradingOrder>, sells: seq<TradingOrder>, topology: Topology, now: I64,
                         x: MatchResult)
    requires Placed(buys) && Placed(sells) && x in Cross(segment, buys, sells, topology, now)
    ensures exists b, a :: b in FastOf(buys) && a in FastOf(sells) && BetweenTradeable(x, b, a, now)
    ensures segment.Interval? ==> x.buyerZone == x.sellerZone
  {
    hide CycleOutcome, AuctionOutcome, RankBuys, Settling, UniqueIds, FastOf, BetweenTradeable;
    FastPlaced(buys);
    FastPlaced(sells);
    FastRunnable(buys, topology, now);
    match segment {
      case Realtime => MatchesAreTradeable(FastOf(buys), FastOf(sells), CdaEnv(buys, topology, now), x);
      case Interval =>
        AuctionMatchesAreTradeable(FastOf(buys), FastOf(sells), ClearingEnv(buys, topology, now), x);
        AuctionMatchesFair(FastOf(buys), FastOf(sells), ClearingEnv(buys, topology, now), x);
    }
  }

  /** A resting order as the ledger keeps it: priced above zero and filled within its size. */
  ghost predicate Placed(orders: seq<TradingOrder>) {
    UniqueOrders(orders)
    && forall i :: 0 <= i < |orders| ==> orders[i].price > 0 && 0 <= orders[i].filledAmount <= orders[i].energyAmount
  }

  lemma FastPlaced(orders: seq<TradingOrder>)
    requires Placed(orders)
    ensures UniqueIds(FastOf(orders)) && NonNegativePrices(FastOf(orders)) && WithinSize(FastOf(orders))
  {
    FastUnique(orders);
    hide Settling, UniqueOrders, UniqueIds, FromDecimal;
    var fast := FastOf(orders);
    forall k | 0 <= k < |fast| ensures 0 <= fast[k].price && fast[k].filledAmount <= fast[k].energyAmount {
      var o := Settling(orders)[k];
      assert o in orders;
      FromDecimalMonotone(0, o.price);
      DecimalRoundTrip(0);
    }
  }

  /** Whichever mechanism crosses them, the matches are good. */
  lemma CrossIsGood(segment: MarketSegment, buys: seq<TradingOrder>, sells: seq<TradingOrder>, topology: Topology, now: I64)
    requires Placed(buys) && Placed(sells)
    ensures GoodMatches(Cross(segment, buys, sells, topology, now), FastOf(buys), FastOf(sells), MetadataOf(buys))
  {
    hide GoodMatches, CycleOutcome, AuctionOutcome, RankBuys, Settling, UniqueIds;
    FastPlaced(buys);
    FastPlaced(sells);
    FastRunnable(buys, topology, now);
    match segment {
      case Realtime => CdaIsGood(FastOf(buys), FastOf(sells), CdaEnv(buys, topology, now));
      case Interval => AuctionIsGood(FastOf(buys), FastOf(sells), ClearingEnv(buys, topology, now));
    }
  }
}
