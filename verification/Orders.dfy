/** The records both engines work on, and the grid topology they are injected with. */
module Orders {
  import opened Options
  import opened FastPrices
  import opened Words

  type Uuid = x: int | 0 <= x < 0x1_0000_0000_0000_0000_0000_0000_0000_0000

  datatype TimeInForce = Gtc | Fok | Ioc {
    predicate IsImmediate() { Ioc? || Fok? }
  }

  /** `Option<i32>`. */
  datatype Zone = NoZone | InZone(id: int)

  /** Smallest tradeable energy, 0.001 kWh, in units of 1e-28 kWh. */
  const MIN_TRADE_AMOUNT: int := 10_000_000_000_000_000_000_000_000

  /** Energy is counted in units of 1e-28 kWh, so sums and differences are exact. */
  datatype FastOrder = FastOrder(
    id: Uuid,
    userId: Uuid,
    price: I64,
    energyAmount: int,
    filledAmount: int,
    zone: Zone,
    createdAt: I64,
    expiresAt: Option<I64>,
    timeInForce: TimeInForce,
    metadataIndex: nat)
  {
    function Remaining(): int { energyAmount - filledAmount }

    predicate IsExpired(now: I64) { expiresAt.Some? && expiresAt.value <= now }

    /** Eligible to trade in a cycle started at `now`. */
    predicate Resting(now: I64) { Remaining() >= MIN_TRADE_AMOUNT && !IsExpired(now) }

    function Fill(amount: int): FastOrder { this.(filledAmount := filledAmount + amount) }

    /** Same order, possibly filled differently. */
    predicate SameTerms(other: FastOrder) { this.(filledAmount := other.filledAmount) == other }
  }

  datatype OrderMetadata = OrderMetadata(epochId: Uuid, orderPda: Option<string>, sessionToken: Option<string>)

  /** Every price is a nine-decimal mantissa; a product of an amount and a price is counted
      in units of 1e-37. */
  datatype MatchResult = MatchResult(
    buyOrderId: Uuid,
    sellOrderId: Uuid,
    buyMetadataIndex: nat,
    sellMetadataIndex: nat,
    matchAmount: int,
    matchPrice: I64,
    settlePrice: I64,
    sellerPrice: I64,
    buyerPrice: I64,
    totalEnergyCost: int,
    wheelingCharge: int,
    lossFactor: I64,
    lossCost: int,
    buyerZone: Zone,
    sellerZone: Zone,
    buyerId: Uuid,
    sellerId: Uuid,
    epochId: Uuid)

  datatype CycleStats = CycleStats(matchesCreated: nat, totalVolume: int, iocCancellations: seq<Uuid>)

  /** An immutable grid snapshot: three uninterpreted functions of a (sell zone, buy zone) link. */
  datatype Topology = Topology(
    canAccommodate: (Zone, Zone, int) -> bool,
    wheeling: (Zone, Zone) -> I64,
    loss: (Zone, Zone) -> I64)

  /** Enough left to trade, and not past its expiry. */
  ghost predicate Tradeable(o: FastOrder, now: I64) {
    o.energyAmount - o.filledAmount >= MIN_TRADE_AMOUNT && (o.expiresAt.None? || now < o.expiresAt.value)
  }

  /** `a` is served before `b`: the higher bid, then the earlier arrival, then the lower id. */
  ghost predicate Outbids(a: FastOrder, b: FastOrder) {
    || a.price > b.price
    || (a.price == b.price && a.createdAt < b.createdAt)
    || (a.price == b.price && a.createdAt == b.createdAt && a.id < b.id)
  }

  /** `a` is taken before `b`: the lower ask, then the earlier arrival, then the lower id. */
  ghost predicate Undercuts(a: FastOrder, b: FastOrder) {
    || a.price < b.price
    || (a.price == b.price && a.createdAt < b.createdAt)
    || (a.price == b.price && a.createdAt == b.createdAt && a.id < b.id)
  }

  lemma RestingIsTradeable(o: FastOrder, now: I64)
    ensures o.Resting(now) <==> Tradeable(o, now)
  {
  }

  ghost predicate UniqueIds(orders: seq<FastOrder>) {
    forall i, j :: 0 <= i < j < |orders| ==> orders[i].id != orders[j].id
  }

  ghost predicate NonNegativePrices(orders: seq<FastOrder>) {
    forall i :: 0 <= i < |orders| ==> 0 <= orders[i].price
  }

  /** The slice holds the same orders in the same places, only their fills may differ. */
  ghost predicate SameOrders(before: seq<FastOrder>, after: seq<FastOrder>) {
    |before| == |after| && forall i :: 0 <= i < |before| ==> before[i].SameTerms(after[i])
  }

  /** Energy matched in all of `matches`. */
  function Volume(matches: seq<MatchResult>): int {
    if matches == [] then 0 else Volume(matches[..|matches| - 1]) + matches[|matches| - 1].matchAmount
  }

  /** Energy matched against the buy order `id`. */
  function BoughtBy(matches: seq<MatchResult>, id: Uuid): int {
    if matches == [] then 0
    else
      var last := matches[|matches| - 1];
      BoughtBy(matches[..|matches| - 1], id) + (if last.buyOrderId == id then last.matchAmount else 0)
  }

  /** Energy matched against the sell order `id`. */
  function SoldBy(matches: seq<MatchResult>, id: Uuid): int {
    if matches == [] then 0
    else
      var last := matches[|matches| - 1];
      SoldBy(matches[..|matches| - 1], id) + (if last.sellOrderId == id then last.matchAmount else 0)
  }

  /** Ids of immediate orders with anything left unfilled, which must not rest. */
  function Unrested(orders: seq<FastOrder>, now: I64): seq<Uuid> {
    if orders == [] then []
    else
      var o := orders[|orders| - 1];
      Unrested(orders[..|orders| - 1], now)
      + (if o.timeInForce.IsImmediate() && !o.IsExpired(now) && o.Remaining() > 0 then [o.id] else [])
  }

  /** The match pairs two of these orders, at an amount that can trade and a price between the
      ask and the bid, and carries both their zones and metadata positions and the buyer's epoch. */
  ghost predicate FairMatch(x: MatchResult, buys: seq<FastOrder>, sells: seq<FastOrder>, metadata: seq<OrderMetadata>) {
    && x.matchAmount >= MIN_TRADE_AMOUNT && x.sellerPrice <= x.settlePrice <= x.buyerPrice
    && x.buyerId != x.sellerId && x.totalEnergyCost == x.matchAmount * x.settlePrice
    && (exists i :: 0 <= i < |buys| && buys[i].id == x.buyOrderId && buys[i].price == x.buyerPrice
          && buys[i].userId == x.buyerId && buys[i].zone == x.buyerZone && buys[i].metadataIndex == x.buyMetadataIndex)
    && (exists j :: 0 <= j < |sells| && sells[j].id == x.sellOrderId && sells[j].price == x.sellerPrice
          && sells[j].userId == x.sellerId && sells[j].zone == x.sellerZone && sells[j].metadataIndex == x.sellMetadataIndex)
    && x.buyMetadataIndex < |metadata| && x.epochId == metadata[x.buyMetadataIndex].epochId
  }
}
