/** What the uniform-price auction computes: the two-pointer sweep of one zone, the single
    price it settles at, and the partition of a cycle's orders into zones. */
module AuctionSpec {
  import opened Options
  import opened FastPrices
  import opened Words
  import opened Orders
  import opened Ordering
  import opened CdaSpec
  import opened CdaGather

  datatype Fill = Fill(buy: nat, sell: nat, amount: int)

  /** Prices of the last accepted bid and ask. */
  datatype Marginal = Marginal(bid: I64, ask: I64)

  datatype Sweep = Sweep(buys: seq<FastOrder>, sells: seq<FastOrder>, fills: seq<Fill>, marginal: Option<Marginal>)

  ghost predicate Within(ix: seq<nat>, n: nat) {
    forall k :: 0 <= k < |ix| ==> ix[k] < n
  }

  /** Trade as much as both orders have left. */
  function Trade(s: Sweep, b: nat, a: nat): Sweep
    requires b < |s.buys| && a < |s.sells|
  {
    var amount := Min(s.buys[b].Remaining(), s.sells[a].Remaining());
    Sweep(s.buys[b := s.buys[b].Fill(amount)], s.sells[a := s.sells[a].Fill(amount)],
          s.fills + [Fill(b, a, amount)], Some(Marginal(s.buys[b].price, s.sells[a].price)))
  }

  /** Walk demand `bi` from position `i` and supply `si` from position `j`. */
  function SweepFrom(s: Sweep, bi: seq<nat>, si: seq<nat>, i: nat, j: nat): Sweep
    requires Within(bi, |s.buys|) && Within(si, |s.sells|) && i <= |bi| && j <= |si|
    decreases |bi| - i + |si| - j
  {
    if i == |bi| || j == |si| then s
    else
      var buy, sell := s.buys[bi[i]], s.sells[si[j]];
      if buy.price < sell.price then s
      else if buy.userId == sell.userId then SweepFrom(s, bi, si, i, j + 1)
      else if buy.Remaining() < MIN_TRADE_AMOUNT then SweepFrom(s, bi, si, i + 1, j)
      else if sell.Remaining() < MIN_TRADE_AMOUNT then SweepFrom(s, bi, si, i, j + 1)
      else
        var t := Trade(s, bi[i], si[j]);
        SweepFrom(t, bi, si, if t.buys[bi[i]].Remaining() < MIN_TRADE_AMOUNT then i + 1 else i,
                  if t.sells[si[j]].Remaining() < MIN_TRADE_AMOUNT then j + 1 else j)
  }

  // ---------- Priority ----------

  /** Demand is price descending, supply price ascending; then arrival, then id. */
  function Priority(o: FastOrder, demand: bool): Key { if demand then BuyKey(o) else BookKey(o) }

  function RankEntries(ix: seq<nat>, orders: seq<FastOrder>, demand: bool): (r: seq<Entry>)
    requires Within(ix, |orders|)
    ensures |r| == |ix|
  {
    if ix == [] then []
    else
      var last := ix[|ix| - 1];
      Insert(RankEntries(ix[..|ix| - 1], orders, demand), Entry(Priority(orders[last], demand), last), EntryKey)
  }

  function Indices(entries: seq<Entry>): (r: seq<nat>)
    ensures |r| == |entries| && forall k :: 0 <= k < |r| ==> r[k] == entries[k].idx
  {
    seq(|entries|, k requires 0 <= k < |entries| => entries[k].idx)
  }

  /** The index list in priority order. */
  function InPriority(ix: seq<nat>, orders: seq<FastOrder>, demand: bool): (r: seq<nat>)
    requires Within(ix, |orders|)
    ensures |r| == |ix|
  {
    Indices(RankEntries(ix, orders, demand))
  }

  lemma {:induction false} RankEntriesOf(ix: seq<nat>, orders: seq<FastOrder>, demand: bool, e: Entry)
    requires Within(ix, |orders|)
    ensures e in RankEntries(ix, orders, demand) <==>
      e.idx in ix && e.key == Priority(orders[e.idx], demand)
  {
    if ix != [] {
      var n := |ix| - 1;
      var last := Entry(Priority(orders[ix[n]], demand), ix[n]);
      RankEntriesOf(ix[..n], orders, demand, e);
      InsertMember(RankEntries(ix[..n], orders, demand), last, EntryKey, e);
      assert e.idx in ix <==> e.idx in ix[..n] || e.idx == ix[n] by { assert ix == ix[..n] + [ix[n]]; }
    }
  }

  lemma RankedWithin(ix: seq<nat>, orders: seq<FastOrder>, demand: bool)
    requires Within(ix, |orders|)
    ensures Within(InPriority(ix, orders, demand), |orders|)
    ensures forall k :: 0 <= k < |ix| ==> InPriority(ix, orders, demand)[k] in ix
  {
    var es := RankEntries(ix, orders, demand);
    forall k | 0 <= k < |es| ensures es[k].idx in ix {
      RankEntriesOf(ix, orders, demand, es[k]);
    }
  }

  /** Clear one zone's index lists. */
  function ClearZone(buyIx: seq<nat>, sellIx: seq<nat>, buys: seq<FastOrder>, sells: seq<FastOrder>): Sweep
    requires Within(buyIx, |buys|) && Within(sellIx, |sells|)
  {
    RankedWithin(buyIx, buys, true);
    RankedWithin(sellIx, sells, false);
    SweepFrom(Sweep(buys, sells, [], None), InPriority(buyIx, buys, true), InPriority(sellIx, sells, false), 0, 0)
  }

  // ---------- Settlement of a zone's fills ----------

  datatype ZoneClearing = ZoneClearing(zone: Zone, clearingPrice: I64, clearedVolume: int, matches: seq<MatchResult>)

  /** Loss per kWh at the clearing price; here the wheeling charge is not floored. */
  function UnitLoss(price: I64, loss: I64): I64 {
    NarrowOrMax(TruncDiv(price * Max(SaturatingSub(loss, FACTOR), 0), FACTOR))
  }

  function SettleFill(f: Fill, zone: Zone, price: I64, buys: seq<FastOrder>, sells: seq<FastOrder>,
                      metadata: seq<OrderMetadata>, topology: Topology): (r: MatchResult)
    requires f.buy < |buys| && f.sell < |sells| && buys[f.buy].metadataIndex < |metadata|
    ensures r.matchAmount == f.amount
  {
    var buy, sell := buys[f.buy], sells[f.sell];
    var wheeling, loss := topology.wheeling(zone, zone), topology.loss(zone, zone);
    MatchResult(buy.id, sell.id, buy.metadataIndex, sell.metadataIndex, f.amount, price, price,
                sell.price, buy.price, f.amount * price, f.amount * wheeling, loss, f.amount * UnitLoss(price, loss),
                buy.zone, sell.zone, buy.userId, sell.userId, metadata[buy.metadataIndex].epochId)
  }

  ghost predicate Settleable(fills: seq<Fill>, buys: seq<FastOrder>, sells: seq<FastOrder>, metadata: seq<OrderMetadata>) {
    forall k :: 0 <= k < |fills| ==>
      fills[k].buy < |buys| && fills[k].sell < |sells| && buys[fills[k].buy].metadataIndex < |metadata|
  }

  function SettleFills(fills: seq<Fill>, zone: Zone, price: I64, buys: seq<FastOrder>, sells: seq<FastOrder>,
                       metadata: seq<OrderMetadata>, topology: Topology): (r: seq<MatchResult>)
    requires Settleable(fills, buys, sells, metadata)
    ensures |r| == |fills|
    ensures forall k :: 0 <= k < |r| ==> r[k] == SettleFill(fills[k], zone, price, buys, sells, metadata, topology)
  {
    seq(|fills|, k requires 0 <= k < |fills| => SettleFill(fills[k], zone, price, buys, sells, metadata, topology))
  }

  /** The zone's outcome, or nothing when no fill happened. */
  function Outcome(s: Sweep, zone: Zone, metadata: seq<OrderMetadata>, topology: Topology): Option<ZoneClearing>
    requires Settleable(s.fills, s.buys, s.sells, metadata)
  {
    match s.marginal
    case None => None
    case Some(m) =>
      if s.fills == [] then None
      else
        var price := Midpoint(m.bid, m.ask);
        var matches := SettleFills(s.fills, zone, price, s.buys, s.sells, metadata, topology);
        Some(ZoneClearing(zone, price, Volume(matches), matches))
  }

  /** The zone settles all its matches at one price: the average of the bid and the ask of the
      last pair it matched, rounded toward zero. */
  ghost predicate ClearsAtMidpoint(clearing: ZoneClearing) {
    && clearing.matches != []
    && (forall k :: 0 <= k < |clearing.matches| ==>
          clearing.matches[k].settlePrice == clearing.matches[k].matchPrice == clearing.clearingPrice)
    && var last := clearing.matches[|clearing.matches| - 1];
       Averages(clearing.clearingPrice, last.buyerPrice, last.sellerPrice)
  }

  /** The marginal pair is the last one filled, at a bid no lower than its ask. */
  ghost predicate LastIsMarginal(s: Sweep) {
    s.fills != [] ==>
      var f := s.fills[|s.fills| - 1];
      f.buy < |s.buys| && f.sell < |s.sells| && s.sells[f.sell].price <= s.buys[f.buy].price
      && s.marginal == Some(Marginal(s.buys[f.buy].price, s.sells[f.sell].price))
  }

  lemma {:induction false} SweepMargin(s: Sweep, bi: seq<nat>, si: seq<nat>, i: nat, j: nat)
    requires Within(bi, |s.buys|) && Within(si, |s.sells|) && i <= |bi| && j <= |si| && LastIsMarginal(s)
    ensures LastIsMarginal(SweepFrom(s, bi, si, i, j))
    decreases |bi| - i + |si| - j
  {
    if i < |bi| && j < |si| {
      var buy, sell := s.buys[bi[i]], s.sells[si[j]];
      if buy.price < sell.price {
      } else if buy.userId == sell.userId {
        SweepMargin(s, bi, si, i, j + 1);
      } else if buy.Remaining() < MIN_TRADE_AMOUNT {
        SweepMargin(s, bi, si, i + 1, j);
      } else if sell.Remaining() < MIN_TRADE_AMOUNT {
        SweepMargin(s, bi, si, i, j + 1);
      } else {
        var t := Trade(s, bi[i], si[j]);
        SweepMargin(t, bi, si, if t.buys[bi[i]].Remaining() < MIN_TRADE_AMOUNT then i + 1 else i,
                    if t.sells[si[j]].Remaining() < MIN_TRADE_AMOUNT then j + 1 else j);
      }
    }
  }

  lemma OutcomePrice(s: Sweep, zone: Zone, metadata: seq<OrderMetadata>, topology: Topology)
    requires Settleable(s.fills, s.buys, s.sells, metadata) && LastIsMarginal(s)
    ensures Outcome(s, zone, metadata, topology).Some? <==> s.fills != []
    ensures Outcome(s, zone, metadata, topology).Some? ==> ClearsAtMidpoint(Outcome(s, zone, metadata, topology).value)
  {
    hide Volume, UnitLoss, Midpoint, Averages;
    if s.fills != [] {
      MidpointBetween(s.marginal.value.ask, s.marginal.value.bid);
      AveragesEitherWay(Midpoint(s.marginal.value.bid, s.marginal.value.ask), s.marginal.value.ask, s.marginal.value.bid);
      MidpointCommutes(s.marginal.value.bid, s.marginal.value.ask);
    }
  }

  lemma MidpointCommutes(a: I64, b: I64)
    ensures Midpoint(a, b) == Midpoint(b, a)
  {
  }

  lemma AveragesEitherWay(p: int, a: int, b: int)
    ensures Averages(p, a, b) <==> Averages(p, b, a)
  {
  }

  // ---------- Partition into zones ----------

  datatype ZoneGroup = ZoneGroup(zone: Zone, members: seq<nat>)

  function ZoneKey(g: ZoneGroup): Key {
    match g.zone
    case NoZone => Key(0, 0, 0, 0)
    case InZone(id) => Key(1, id, 0, 0)
  }

  /** `map.entry(zone).or_default().push(idx)` on an ordered map. */
  function AddMember(groups: seq<ZoneGroup>, zone: Zone, idx: nat): seq<ZoneGroup> {
    if groups == [] || ZoneKey(ZoneGroup(zone, [])).Less(ZoneKey(groups[0])) then [ZoneGroup(zone, [idx])] + groups
    else if groups[0].zone == zone then [groups[0].(members := groups[0].members + [idx])] + groups[1..]
    else [groups[0]] + AddMember(groups[1..], zone, idx)
  }

  /** Groups of the first `n` orders. */
  function Partition(orders: seq<FastOrder>, n: nat, now: I64): seq<ZoneGroup>
    requires n <= |orders|
  {
    if n == 0 then []
    else
      var rest := Partition(orders, n - 1, now);
      if orders[n - 1].Resting(now) then AddMember(rest, orders[n - 1].zone, n - 1) else rest
  }

  /** Tradeable orders of one zone among the first `n`, in slice order. */
  function Members(orders: seq<FastOrder>, n: nat, zone: Zone, now: I64): (r: seq<nat>)
    requires n <= |orders|
    ensures forall k :: 0 <= k < |r| ==> r[k] < n && orders[r[k]].zone == zone && orders[r[k]].Resting(now)
    ensures forall k, l :: 0 <= k < l < |r| ==> r[k] < r[l]
    ensures forall i :: 0 <= i < n && orders[i].Resting(now) && orders[i].zone == zone ==> i in r
  {
    if n == 0 then []
    else
      var rest := Members(orders, n - 1, zone, now);
      if orders[n - 1].Resting(now) && orders[n - 1].zone == zone then rest + [n - 1] else rest
  }

  // ---------- The whole cycle ----------

  ghost predicate FillsAmong(fills: seq<Fill>, bi: seq<nat>, si: seq<nat>) {
    forall k :: 0 <= k < |fills| ==> fills[k].buy in bi && fills[k].sell in si
  }

  /** A sweep changes fills of the listed orders only, and fills only those. */
  ghost predicate SweepKeeps(s: Sweep, r: Sweep, bi: seq<nat>, si: seq<nat>) {
    && SameOrders(s.buys, r.buys) && SameOrders(s.sells, r.sells)
    && (forall k :: 0 <= k < |s.buys| && k !in bi ==> r.buys[k] == s.buys[k])
    && (forall k :: 0 <= k < |s.sells| && k !in si ==> r.sells[k] == s.sells[k])
    && (FillsAmong(s.fills, bi, si) ==> FillsAmong(r.fills, bi, si))
  }

  lemma {:induction false} SweepKeepsTerms(s: Sweep, bi: seq<nat>, si: seq<nat>, i: nat, j: nat)
    requires Within(bi, |s.buys|) && Within(si, |s.sells|) && i <= |bi| && j <= |si|
    ensures SweepKeeps(s, SweepFrom(s, bi, si, i, j), bi, si)
    decreases |bi| - i + |si| - j
  {
    if i < |bi| && j < |si| {
      var buy, sell := s.buys[bi[i]], s.sells[si[j]];
      if buy.price < sell.price {
      } else if buy.userId == sell.userId {
        SweepKeepsTerms(s, bi, si, i, j + 1);
      } else if buy.Remaining() < MIN_TRADE_AMOUNT {
        SweepKeepsTerms(s, bi, si, i + 1, j);
      } else if sell.Remaining() < MIN_TRADE_AMOUNT {
        SweepKeepsTerms(s, bi, si, i, j + 1);
      } else {
        var t := Trade(s, bi[i], si[j]);
        var i' := if t.buys[bi[i]].Remaining() < MIN_TRADE_AMOUNT then i + 1 else i;
        var j' := if t.sells[si[j]].Remaining() < MIN_TRADE_AMOUNT then j + 1 else j;
        SweepKeepsTerms(t, bi, si, i', j');
        KeepsCompose(s, t, SweepFrom(t, bi, si, i', j'), bi, si);
      }
    }
  }

  lemma KeepsCompose(s: Sweep, t: Sweep, r: Sweep, bi: seq<nat>, si: seq<nat>)
    requires SweepKeeps(s, t, bi, si) && SweepKeeps(t, r, bi, si)
    ensures SweepKeeps(s, r, bi, si)
  {
  }

  /** Clearing a zone touches its own orders only. */
  lemma ClearZoneKeeps(buyIx: seq<nat>, sellIx: seq<nat>, buys: seq<FastOrder>, sells: seq<FastOrder>)
    requires Within(buyIx, |buys|) && Within(sellIx, |sells|)
    ensures SweepKeeps(Sweep(buys, sells, [], None), ClearZone(buyIx, sellIx, buys, sells), buyIx, sellIx)
    ensures FillsAmong(ClearZone(buyIx, sellIx, buys, sells).fills, buyIx, sellIx)
  {
    RankedWithin(buyIx, buys, true);
    RankedWithin(sellIx, sells, false);
    var bi, si := InPriority(buyIx, buys, true), InPriority(sellIx, sells, false);
    SweepKeepsTerms(Sweep(buys, sells, [], None), bi, si, 0, 0);
    assert forall k :: k in bi ==> k in buyIx;
    assert forall k :: k in si ==> k in sellIx;
  }

  lemma ClearZoneMargin(buyIx: seq<nat>, sellIx: seq<nat>, buys: seq<FastOrder>, sells: seq<FastOrder>)
    requires Within(buyIx, |buys|) && Within(sellIx, |sells|)
    ensures LastIsMarginal(ClearZone(buyIx, sellIx, buys, sells))
  {
    RankedWithin(buyIx, buys, true);
    RankedWithin(sellIx, sells, false);
    SweepMargin(Sweep(buys, sells, [], None), InPriority(buyIx, buys, true), InPriority(sellIx, sells, false), 0, 0);
  }

  datatype AuctionEnv = AuctionEnv(topology: Topology, now: I64, metadata: seq<OrderMetadata>)

  datatype AuctionCycle = AuctionCycle(buys: seq<FastOrder>, sells: seq<FastOrder>, zones: seq<ZoneClearing>)

  ghost predicate Auctionable(buys: seq<FastOrder>, env: AuctionEnv) {
    forall i :: 0 <= i < |buys| ==> buys[i].metadataIndex < |env.metadata|
  }

  /** Clear one zone within a cycle. */
  function ClearGroup(c: AuctionCycle, zone: Zone, buyIx: seq<nat>, sellIx: seq<nat>, env: AuctionEnv): AuctionCycle
    requires Auctionable(c.buys, env) && Within(buyIx, |c.buys|) && Within(sellIx, |c.sells|)
  {
    var s := ClearZone(buyIx, sellIx, c.buys, c.sells);
    ClearZoneKeeps(buyIx, sellIx, c.buys, c.sells);
    var outcome := Outcome(s, zone, env.metadata, env.topology);
    AuctionCycle(s.buys, s.sells, c.zones + if outcome.Some? then [outcome.value] else [])
  }

  function MembersOf(groups: seq<ZoneGroup>, zone: Zone): Option<seq<nat>> {
    if groups == [] then None
    else if groups[0].zone == zone then Some(groups[0].members)
    else MembersOf(groups[1..], zone)
  }

  ghost predicate GroupsWithin(groups: seq<ZoneGroup>, n: nat) {
    forall g :: 0 <= g < |groups| ==> Within(groups[g].members, n)
  }

  /** Clear the zones of `demand` in order, each against its own supply. */
  function ClearGroups(c: AuctionCycle, demand: seq<ZoneGroup>, supply: seq<ZoneGroup>, env: AuctionEnv): AuctionCycle
    requires Auctionable(c.buys, env) && GroupsWithin(demand, |c.buys|) && GroupsWithin(supply, |c.sells|)
    decreases |demand|
  {
    if demand == [] then c
    else
      MembersWithin(supply, |c.sells|, demand[0].zone);
      match MembersOf(supply, demand[0].zone)
      case None => ClearGroups(c, demand[1..], supply, env)
      case Some(sellIx) =>
        ClearZoneKeeps(demand[0].members, sellIx, c.buys, c.sells);
        ClearGroups(ClearGroup(c, demand[0].zone, demand[0].members, sellIx, env), demand[1..], supply, env)
  }

  lemma {:induction false} MembersWithin(groups: seq<ZoneGroup>, n: nat, zone: Zone)
    requires GroupsWithin(groups, n)
    ensures MembersOf(groups, zone).Some? ==> Within(MembersOf(groups, zone).value, n)
  {
    if groups != [] {
      MembersWithin(groups[1..], n, zone);
    }
  }

  lemma {:induction false} AddMemberWithin(groups: seq<ZoneGroup>, n: nat, zone: Zone, idx: nat)
    requires GroupsWithin(groups, n) && idx < n
    ensures GroupsWithin(AddMember(groups, zone, idx), n)
  {
    if groups == [] || ZoneKey(ZoneGroup(zone, [])).Less(ZoneKey(groups[0])) || groups[0].zone == zone {
    } else {
      AddMemberWithin(groups[1..], n, zone, idx);
    }
  }

  lemma {:induction false} PartitionWithin(orders: seq<FastOrder>, n: nat, now: I64)
    requires n <= |orders|
    ensures GroupsWithin(Partition(orders, n, now), |orders|)
  {
    if n > 0 {
      PartitionWithin(orders, n - 1, now);
      AddMemberWithin(Partition(orders, n - 1, now), |orders|, orders[n - 1].zone, n - 1);
    }
  }

  /** The whole clearing cycle. */
  function AuctionOutcome(buys: seq<FastOrder>, sells: seq<FastOrder>, env: AuctionEnv): AuctionCycle
    requires Auctionable(buys, env)
  {
    PartitionWithin(buys, |buys|, env.now);
    PartitionWithin(sells, |sells|, env.now);
    ClearGroups(AuctionCycle(buys, sells, []), Partition(buys, |buys|, env.now), Partition(sells, |sells|, env.now), env)
  }

  /** All matches of a cycle, zone by zone. */
  function Flatten(zones: seq<ZoneClearing>): seq<MatchResult> {
    if zones == [] then [] else Flatten(zones[..|zones| - 1]) + zones[|zones| - 1].matches
  }

  function TotalCleared(zones: seq<ZoneClearing>): int {
    if zones == [] then 0 else TotalCleared(zones[..|zones| - 1]) + zones[|zones| - 1].clearedVolume
  }
}
