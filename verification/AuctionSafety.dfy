/** What a whole auction cycle owes the durable ledger: each order advances by exactly its
    matches, within its size, and every match is rational. */
module AuctionSafety {
  import opened Options
  import opened FastPrices
  import opened Words
  import opened Orders
  import opened Ordering
  import opened Pricing
  import opened CdaSpec
  import opened CdaSafety
  import opened AuctionSpec
  import opened AuctionTheorems
  import opened AuctionZones

  lemma {:induction false} BoughtAppend(a: seq<MatchResult>, b: seq<MatchResult>, id: Uuid)
    ensures BoughtBy(a + b, id) == BoughtBy(a, id) + BoughtBy(b, id)
    decreases |b|
  {
    if b == [] {
      assert a + b == a;
    } else {
      BoughtAppend(a, b[..|b| - 1], id);
      assert (a + b)[..|a + b| - 1] == a + b[..|b| - 1];
    }
  }

  lemma {:induction false} SoldAppend(a: seq<MatchResult>, b: seq<MatchResult>, id: Uuid)
    ensures SoldBy(a + b, id) == SoldBy(a, id) + SoldBy(b, id)
    decreases |b|
  {
    if b == [] {
      assert a + b == a;
    } else {
      SoldAppend(a, b[..|b| - 1], id);
      assert (a + b)[..|a + b| - 1] == a + b[..|b| - 1];
    }
  }

  /** Matched energy of an order is what its fills carried. */
  lemma {:induction false} SettledOn(fills: seq<Fill>, zone: Zone, price: I64, buys: seq<FastOrder>, sells: seq<FastOrder>,
                                     metadata: seq<OrderMetadata>, topology: Topology, k: nat)
    requires Settleable(fills, buys, sells, metadata) && UniqueIds(buys) && UniqueIds(sells)
    ensures var ms := SettleFills(fills, zone, price, buys, sells, metadata, topology);
      && (k < |buys| ==> BoughtBy(ms, buys[k].id) == FilledOn(fills, k, true))
      && (k < |sells| ==> SoldBy(ms, sells[k].id) == FilledOn(fills, k, false))
    decreases |fills|
  {
    if fills != [] {
      var n := |fills| - 1;
      SettledOn(fills[..n], zone, price, buys, sells, metadata, topology, k);
      var ms := SettleFills(fills, zone, price, buys, sells, metadata, topology);
      assert ms[..n] == SettleFills(fills[..n], zone, price, buys, sells, metadata, topology);
      assert ms[n] == SettleFill(fills[n], zone, price, buys, sells, metadata, topology);
      assert k < |buys| && fills[n].buy != k ==> buys[k].id != buys[fills[n].buy].id;
      assert k < |sells| && fills[n].sell != k ==> sells[k].id != sells[fills[n].sell].id;
    }
  }

  /** A sweep fills within sizes, whatever order its lists are in. */
  lemma {:induction false} SweepFillsWithin(s: Sweep, bi: seq<nat>, si: seq<nat>, i: nat, j: nat)
    requires Within(bi, |s.buys|) && Within(si, |s.sells|) && i <= |bi| && j <= |si|
    ensures var r := SweepFrom(s, bi, si, i, j);
      && |r.buys| == |s.buys| && |r.sells| == |s.sells|
      && (forall k :: 0 <= k < |s.buys| ==> FilledWithin(s.buys[k], r.buys[k]))
      && (forall k :: 0 <= k < |s.sells| ==> FilledWithin(s.sells[k], r.sells[k]))
      && (s.fills != [] || s.marginal.None? ==> r.fills != [] || r.marginal.None?)
      && (s.marginal.None? && s.fills == [] && r.marginal.None? ==> r.fills == [])
    decreases |bi| - i + |si| - j
  {
    if i < |bi| && j < |si| && s.buys[bi[i]].price >= s.sells[si[j]].price {
      var buy, sell := s.buys[bi[i]], s.sells[si[j]];
      if buy.userId == sell.userId {
        SweepFillsWithin(s, bi, si, i, j + 1);
      } else if buy.Remaining() < MIN_TRADE_AMOUNT {
        SweepFillsWithin(s, bi, si, i + 1, j);
      } else if sell.Remaining() < MIN_TRADE_AMOUNT {
        SweepFillsWithin(s, bi, si, i, j + 1);
      } else {
        var t := Trade(s, bi[i], si[j]);
        var i', j' := if t.buys[bi[i]].Remaining() < MIN_TRADE_AMOUNT then i + 1 else i,
                      if t.sells[si[j]].Remaining() < MIN_TRADE_AMOUNT then j + 1 else j;
        SweepFillsWithin(t, bi, si, i', j');
        SweepKeepsMarginal(t, bi, si, i', j');
      }
    }
  }

  /** Once something was filled, there is a marginal pair to the end. */
  lemma {:induction false} SweepKeepsMarginal(s: Sweep, bi: seq<nat>, si: seq<nat>, i: nat, j: nat)
    requires Within(bi, |s.buys|) && Within(si, |s.sells|) && i <= |bi| && j <= |si| && s.marginal.Some?
    ensures SweepFrom(s, bi, si, i, j).marginal.Some?
    decreases |bi| - i + |si| - j
  {
    if i < |bi| && j < |si| && s.buys[bi[i]].price >= s.sells[si[j]].price {
      var buy, sell := s.buys[bi[i]], s.sells[si[j]];
      if buy.userId == sell.userId {
        SweepKeepsMarginal(s, bi, si, i, j + 1);
      } else if buy.Remaining() < MIN_TRADE_AMOUNT {
        SweepKeepsMarginal(s, bi, si, i + 1, j);
      } else if sell.Remaining() < MIN_TRADE_AMOUNT {
        SweepKeepsMarginal(s, bi, si, i, j + 1);
      } else {
        var t := Trade(s, bi[i], si[j]);
        SweepKeepsMarginal(t, bi, si, if t.buys[bi[i]].Remaining() < MIN_TRADE_AMOUNT then i + 1 else i,
                           if t.sells[si[j]].Remaining() < MIN_TRADE_AMOUNT then j + 1 else j);
      }
    }
  }

  /** From `c` to `r` each order's fill advanced by exactly what the new matches say. */
  ghost predicate CycleBooked(c: AuctionCycle, r: AuctionCycle) {
    && |r.buys| == |c.buys| && |r.sells| == |c.sells|
    && (forall k :: 0 <= k < |c.buys| ==> FilledWithin(c.buys[k], r.buys[k]))
    && (forall k :: 0 <= k < |c.sells| ==> FilledWithin(c.sells[k], r.sells[k]))
    && (forall k :: 0 <= k < |c.buys| ==>
          r.buys[k].filledAmount - c.buys[k].filledAmount
          == BoughtBy(Flatten(r.zones), c.buys[k].id) - BoughtBy(Flatten(c.zones), c.buys[k].id))
    && (forall k :: 0 <= k < |c.sells| ==>
          r.sells[k].filledAmount - c.sells[k].filledAmount
          == SoldBy(Flatten(r.zones), c.sells[k].id) - SoldBy(Flatten(c.zones), c.sells[k].id))
  }

  lemma InPriorityDistinct(ix: seq<nat>, orders: seq<FastOrder>, demand: bool)
    requires Within(ix, |orders|) && Distinct(ix) && UniqueIds(orders)
    ensures Within(InPriority(ix, orders, demand), |orders|) && Distinct(InPriority(ix, orders, demand))
  {
    RankedWithin(ix, orders, demand);
    var r := InPriority(ix, orders, demand);
    forall a, b | 0 <= a < b < |r| ensures r[a] != r[b] {
      RankedOrder(ix, orders, demand, a, b);
    }
  }

  /** The fills of one zone account for every advance, and stay within sizes. */
  lemma ZoneBooks(buyIx: seq<nat>, sellIx: seq<nat>, buys: seq<FastOrder>, sells: seq<FastOrder>)
    requires Within(buyIx, |buys|) && Within(sellIx, |sells|) && Distinct(buyIx) && Distinct(sellIx)
    requires UniqueIds(buys) && UniqueIds(sells)
    ensures var r := ClearZone(buyIx, sellIx, buys, sells);
      && |r.buys| == |buys| && |r.sells| == |sells| && (r.fills == [] || r.marginal.Some?)
      && (forall k :: 0 <= k < |buys| ==> FilledWithin(buys[k], r.buys[k])
                                          && r.buys[k].filledAmount - buys[k].filledAmount == FilledOn(r.fills, k, true))
      && (forall k :: 0 <= k < |sells| ==> FilledWithin(sells[k], r.sells[k])
                                           && r.sells[k].filledAmount - sells[k].filledAmount == FilledOn(r.fills, k, false))
  {
    InPriorityDistinct(buyIx, buys, true);
    InPriorityDistinct(sellIx, sells, false);
    var bi, si := InPriority(buyIx, buys, true), InPriority(sellIx, sells, false);
    var s := Sweep(buys, sells, [], None);
    AdvancedNone(buys, bi);
    AdvancedNone(sells, si);
    SweepSums(s, s, bi, si, 0, 0);
    SweepFillsWithin(s, bi, si, 0, 0);
  }

  lemma FlattenOne(zones: seq<ZoneClearing>, outcome: Option<ZoneClearing>)
    ensures Flatten(zones + if outcome.Some? then [outcome.value] else [])
         == Flatten(zones) + if outcome.Some? then outcome.value.matches else []
  {
    if outcome.Some? {
      assert (zones + [outcome.value])[..|zones|] == zones;
    } else {
      assert zones + [] == zones;
    }
  }

  lemma GroupBooks(c: AuctionCycle, zone: Zone, buyIx: seq<nat>, sellIx: seq<nat>, env: AuctionEnv)
    requires Auctionable(c.buys, env) && Within(buyIx, |c.buys|) && Within(sellIx, |c.sells|)
    requires Distinct(buyIx) && Distinct(sellIx) && UniqueIds(c.buys) && UniqueIds(c.sells)
    ensures CycleBooked(c, ClearGroup(c, zone, buyIx, sellIx, env))
  {
    hide ClearZone, Flatten;
    var s := ClearZone(buyIx, sellIx, c.buys, c.sells);
    var r := ClearGroup(c, zone, buyIx, sellIx, env);
    ClearZoneKeeps(buyIx, sellIx, c.buys, c.sells);
    ZoneBooks(buyIx, sellIx, c.buys, c.sells);
    var outcome := Outcome(s, zone, env.metadata, env.topology);
    FlattenOne(c.zones, outcome);
    var added := if outcome.Some? then outcome.value.matches else [];
    forall k | 0 <= k < |c.buys| ensures BoughtBy(added, c.buys[k].id) == FilledOn(s.fills, k, true) {
      if outcome.Some? {
        SettledOn(s.fills, zone, outcome.value.clearingPrice, s.buys, s.sells, env.metadata, env.topology, k);
      }
    }
    forall k | 0 <= k < |c.sells| ensures SoldBy(added, c.sells[k].id) == FilledOn(s.fills, k, false) {
      if outcome.Some? {
        SettledOn(s.fills, zone, outcome.value.clearingPrice, s.buys, s.sells, env.metadata, env.topology, k);
      }
    }
    forall id: Uuid
      ensures BoughtBy(Flatten(r.zones), id) == BoughtBy(Flatten(c.zones), id) + BoughtBy(added, id)
      ensures SoldBy(Flatten(r.zones), id) == SoldBy(Flatten(c.zones), id) + SoldBy(added, id)
    {
      BoughtAppend(Flatten(c.zones), added, id);
      SoldAppend(Flatten(c.zones), added, id);
    }
  }

  lemma BookedCompose(c: AuctionCycle, mid: AuctionCycle, r: AuctionCycle)
    requires CycleBooked(c, mid) && CycleBooked(mid, r)
    ensures CycleBooked(c, r)
  {
  }

  ghost predicate GroupsDistinct(groups: seq<ZoneGroup>) {
    forall g :: 0 <= g < |groups| ==> Distinct(groups[g].members)
  }

  lemma PartitionDistinct(orders: seq<FastOrder>, now: I64)
    ensures GroupsDistinct(Partition(orders, |orders|, now))
  {
    var groups := Partition(orders, |orders|, now);
    forall g | 0 <= g < |groups| ensures Distinct(groups[g].members) {
      PartitionFiles(orders, |orders|, now, groups[g].zone);
      FindsOwn(groups, g);
    }
  }

  lemma {:induction false} MembersDistinct(groups: seq<ZoneGroup>, z: Zone)
    requires GroupsDistinct(groups)
    ensures MembersOf(groups, z).Some? ==> Distinct(MembersOf(groups, z).value)
  {
    if groups != [] {
      MembersDistinct(groups[1..], z);
    }
  }

  lemma {:induction false} GroupsBook(c: AuctionCycle, demand: seq<ZoneGroup>, supply: seq<ZoneGroup>, env: AuctionEnv)
    requires Auctionable(c.buys, env) && GroupsWithin(demand, |c.buys|) && GroupsWithin(supply, |c.sells|)
    requires GroupsDistinct(demand) && GroupsDistinct(supply) && UniqueIds(c.buys) && UniqueIds(c.sells)
    ensures CycleBooked(c, ClearGroups(c, demand, supply, env))
    decreases |demand|
  {
    hide ClearGroup, MembersOf, CycleBooked;
    BookedNothing(c);
    if demand != [] {
      MembersWithin(supply, |c.sells|, demand[0].zone);
      MembersDistinct(supply, demand[0].zone);
      match MembersOf(supply, demand[0].zone)
      case None => GroupsBook(c, demand[1..], supply, env);
      case Some(sellIx) =>
        GroupBooks(c, demand[0].zone, demand[0].members, sellIx, env);
        var next := ClearGroup(c, demand[0].zone, demand[0].members, sellIx, env);
        GroupKeepsIds(c, demand[0].zone, demand[0].members, sellIx, env);
        GroupsBook(next, demand[1..], supply, env);
        BookedCompose(c, next, ClearGroups(next, demand[1..], supply, env));
    }
  }

  lemma BookedNothing(c: AuctionCycle)
    ensures CycleBooked(c, c)
  {
  }

  lemma GroupKeepsIds(c: AuctionCycle, zone: Zone, buyIx: seq<nat>, sellIx: seq<nat>, env: AuctionEnv)
    requires Auctionable(c.buys, env) && Within(buyIx, |c.buys|) && Within(sellIx, |c.sells|)
    requires UniqueIds(c.buys) && UniqueIds(c.sells)
    ensures var r := ClearGroup(c, zone, buyIx, sellIx, env);
      Auctionable(r.buys, env) && |r.buys| == |c.buys| && |r.sells| == |c.sells| && UniqueIds(r.buys) && UniqueIds(r.sells)
  {
    ClearZoneKeeps(buyIx, sellIx, c.buys, c.sells);
  }

  /** After a clearing cycle every order has advanced by exactly its matches, within its size. */
  lemma AuctionConserves(buys: seq<FastOrder>, sells: seq<FastOrder>, env: AuctionEnv)
    requires Auctionable(buys, env) && UniqueIds(buys) && UniqueIds(sells)
    ensures var c := AuctionOutcome(buys, sells, env);
      var matches := Flatten(c.zones);
      && |c.buys| == |buys| && |c.sells| == |sells|
      && (forall k :: 0 <= k < |buys| ==> FilledWithin(buys[k], c.buys[k]))
      && (forall k :: 0 <= k < |sells| ==> FilledWithin(sells[k], c.sells[k]))
      && (forall k :: 0 <= k < |buys| ==> c.buys[k].filledAmount - buys[k].filledAmount == BoughtBy(matches, buys[k].id))
      && (forall k :: 0 <= k < |sells| ==> c.sells[k].filledAmount - sells[k].filledAmount == SoldBy(matches, sells[k].id))
  {
    hide Partition, ClearGroups;
    PartitionWithin(buys, |buys|, env.now);
    PartitionWithin(sells, |sells|, env.now);
    PartitionDistinct(buys, env.now);
    PartitionDistinct(sells, env.now);
    GroupsBook(AuctionCycle(buys, sells, []), Partition(buys, |buys|, env.now), Partition(sells, |sells|, env.now), env);
    assert Flatten([]) == [];
  }

  /** The tradeable orders of a zone are a zone ready to be listed. */
  lemma MembersAreZoneLists(buys: seq<FastOrder>, sells: seq<FastOrder>, z: Zone, now: I64)
    requires UniqueIds(buys) && UniqueIds(sells)
    ensures ZoneLists(Members(buys, |buys|, z, now), Members(sells, |sells|, z, now), buys, sells)
  {
    hide Members, UniqueIds;
    MembersDistinctResting(buys, z, now);
    MembersDistinctResting(sells, z, now);
  }

  lemma MembersDistinctResting(orders: seq<FastOrder>, z: Zone, now: I64)
    ensures var ix := Members(orders, |orders|, z, now);
      Within(ix, |orders|) && Distinct(ix) && forall a :: 0 <= a < |ix| ==> orders[ix[a]].Remaining() >= MIN_TRADE_AMOUNT
  {
    hide Members;
    var ix := Members(orders, |orders|, z, now);
    forall a, b | 0 <= a < b < |ix| ensures ix[a] != ix[b] {
      assert ix[a] < ix[b];
    }
    forall a | 0 <= a < |ix| ensures orders[ix[a]].Remaining() >= MIN_TRADE_AMOUNT {
      assert orders[ix[a]].Resting(now);
    }
  }

  lemma {:induction false} FlattenedFrom(zones: seq<ZoneClearing>, x: MatchResult)
    requires x in Flatten(zones)
    ensures exists zc :: zc in zones && x in zc.matches
  {
    var last := zones[|zones| - 1];
    if x in last.matches {
      assert last in zones;
    } else {
      FlattenedFrom(zones[..|zones| - 1], x);
    }
  }

  /** Every match of an auction cycle is between different users of one zone, and settles at
      that zone's price, between its ask and its bid. */
  lemma AuctionMatchesFair(buys: seq<FastOrder>, sells: seq<FastOrder>, env: AuctionEnv, x: MatchResult)
    requires Auctionable(buys, env) && UniqueIds(buys) && UniqueIds(sells)
    requires x in Flatten(AuctionOutcome(buys, sells, env).zones)
    ensures FairMatch(x, buys, sells, env.metadata) && x.buyerZone == x.sellerZone && x.settlePrice == x.matchPrice
  {
    hide AuctionOutcome, ClearZone;
    var c := AuctionOutcome(buys, sells, env);
    FlattenedFrom(c.zones, x);
    var zc :| zc in c.zones && x in zc.matches;
    var buyIx, sellIx := Members(buys, |buys|, zc.zone, env.now), Members(sells, |sells|, zc.zone, env.now);
    ZoneClearsAlone(buys, sells, env, zc.zone);
    MembersAreZoneLists(buys, sells, zc.zone, env.now);
    ZoneMatchFair(buyIx, sellIx, buys, sells, zc.zone, env, x);
  }

  lemma ZoneMatchFair(buyIx: seq<nat>, sellIx: seq<nat>, buys: seq<FastOrder>, sells: seq<FastOrder>, z: Zone,
                      env: AuctionEnv, x: MatchResult)
    requires Auctionable(buys, env) && ZoneLists(buyIx, sellIx, buys, sells)
    requires AllOfZone(buyIx, buys, z) && AllOfZone(sellIx, sells, z)
    requires var clearing := ClearingOf(Alone(buyIx, sellIx, buys, sells, z, env));
      clearing.Some? && x in clearing.value.matches
    ensures FairMatch(x, buys, sells, env.metadata) && x.buyerZone == x.sellerZone && x.settlePrice == x.matchPrice
  {
    hide ClearZone, UniqueIds, Distinct, Volume;
    var s := ClearZone(buyIx, sellIx, buys, sells);
    ClearZoneKeeps(buyIx, sellIx, buys, sells);
    var matches := ClearingOf(Alone(buyIx, sellIx, buys, sells, z, env)).value.matches;
    var k :| 0 <= k < |matches| && matches[k] == x;
    ZoneIsRational(buyIx, sellIx, buys, sells, k);
    var f := s.fills[k];
    var a :| 0 <= a < |buyIx| && buyIx[a] == f.buy;
    var b :| 0 <= b < |sellIx| && sellIx[b] == f.sell;
    assert buys[f.buy].SameTerms(s.buys[f.buy]) && sells[f.sell].SameTerms(s.sells[f.sell]);
  }

  // ---------- Who trades, where and at what charges ----------

  /** The orders a zone's match names are members of the zone. */
  lemma ZoneMatchNames(buyIx: seq<nat>, sellIx: seq<nat>, buys: seq<FastOrder>, sells: seq<FastOrder>, z: Zone,
                       env: AuctionEnv, x: MatchResult) returns (i: nat, j: nat)
    requires Auctionable(buys, env) && Within(buyIx, |buys|) && Within(sellIx, |sells|)
    requires var clearing := ClearingOf(Alone(buyIx, sellIx, buys, sells, z, env));
      clearing.Some? && x in clearing.value.matches
    ensures i in buyIx && j in sellIx && i < |buys| && j < |sells| && buys[i].id == x.buyOrderId && sells[j].id == x.sellOrderId
    ensures buys[i].zone == x.buyerZone && sells[j].zone == x.sellerZone
  {
    hide ClearZone, Volume, UnitLoss;
    var s := ClearZone(buyIx, sellIx, buys, sells);
    ClearZoneKeeps(buyIx, sellIx, buys, sells);
    var matches := ClearingOf(Alone(buyIx, sellIx, buys, sells, z, env)).value.matches;
    var k :| 0 <= k < |matches| && matches[k] == x;
    i, j := s.fills[k].buy, s.fills[k].sell;
    assert buys[i].SameTerms(s.buys[i]) && sells[j].SameTerms(s.sells[j]);
  }

  /** Every match of a clearing cycle is of a buy and a sell it was given that had enough left to
      trade and had not expired when it started. */
  lemma AuctionMatchesAreTradeable(buys: seq<FastOrder>, sells: seq<FastOrder>, env: AuctionEnv, x: MatchResult)
    requires Auctionable(buys, env) && x in Flatten(AuctionOutcome(buys, sells, env).zones)
    ensures exists b, a :: b in buys && a in sells && BetweenTradeable(x, b, a, env.now)
  {
    hide AuctionOutcome, ClearZone, Tradeable, Members;
    var c := AuctionOutcome(buys, sells, env);
    FlattenedFrom(c.zones, x);
    var zc :| zc in c.zones && x in zc.matches;
    var buyIx, sellIx := Members(buys, |buys|, zc.zone, env.now), Members(sells, |sells|, zc.zone, env.now);
    ZoneClearsAlone(buys, sells, env, zc.zone);
    var i, j := ZoneMatchNames(buyIx, sellIx, buys, sells, zc.zone, env, x);
    RestingIsTradeable(buys[i], env.now);
    RestingIsTradeable(sells[j], env.now);
    assert buys[i] in buys && sells[j] in sells && BetweenTradeable(x, buys[i], sells[j], env.now);
  }

  /** A match listed under a zone is between orders of that zone. */
  lemma MatchInItsZone(buys: seq<FastOrder>, sells: seq<FastOrder>, env: AuctionEnv, zc: ZoneClearing, x: MatchResult)
    requires Auctionable(buys, env) && zc in AuctionOutcome(buys, sells, env).zones && x in zc.matches
    ensures x.buyerZone == x.sellerZone == zc.zone
  {
    hide AuctionOutcome, ClearZone, Members;
    var buyIx, sellIx := Members(buys, |buys|, zc.zone, env.now), Members(sells, |sells|, zc.zone, env.now);
    ZoneClearsAlone(buys, sells, env, zc.zone);
    var i, j := ZoneMatchNames(buyIx, sellIx, buys, sells, zc.zone, env, x);
  }

  /** Charged at the grid's rates inside its zone: wheeling per unit of energy, and loss per unit
      of energy at the clearing price. */
  ghost predicate ChargedInZone(x: MatchResult, zone: Zone, price: I64, topology: Topology) {
    && x.totalEnergyCost == x.matchAmount * price
    && x.wheelingCharge == x.matchAmount * topology.wheeling(zone, zone)
    && x.lossFactor == topology.loss(zone, zone)
    && x.lossCost == x.matchAmount * LossCost(price, topology.loss(zone, zone))
  }

  /** What a cycle says of each zone it cleared. */
  ghost predicate ClearedRight(zc: ZoneClearing, topology: Topology) {
    && ClearsAtMidpoint(zc) && zc.clearedVolume == Volume(zc.matches)
    && forall k :: 0 <= k < |zc.matches| ==> ChargedInZone(zc.matches[k], zc.zone, zc.clearingPrice, topology)
  }

  lemma UnitLossIsLossCost(price: I64, loss: I64)
    ensures UnitLoss(price, loss) == LossCost(price, loss)
  {
  }

  lemma OutcomeIsRight(s: Sweep, zone: Zone, env: AuctionEnv)
    requires Settleable(s.fills, s.buys, s.sells, env.metadata) && LastIsMarginal(s)
    ensures Outcome(s, zone, env.metadata, env.topology).Some? ==>
      ClearedRight(Outcome(s, zone, env.metadata, env.topology).value, env.topology)
  {
    hide Volume, UnitLoss, LossCost, Midpoint, ClearsAtMidpoint, LastIsMarginal;
    if s.marginal.Some? {
      UnitLossIsLossCost(Midpoint(s.marginal.value.bid, s.marginal.value.ask), env.topology.loss(zone, zone));
    }
    OutcomePrice(s, zone, env.metadata, env.topology);
  }

  lemma GroupIsRight(c: AuctionCycle, zone: Zone, buyIx: seq<nat>, sellIx: seq<nat>, env: AuctionEnv)
    requires Auctionable(c.buys, env) && Within(buyIx, |c.buys|) && Within(sellIx, |c.sells|)
    requires forall zc :: zc in c.zones ==> ClearedRight(zc, env.topology)
    ensures forall zc :: zc in ClearGroup(c, zone, buyIx, sellIx, env).zones ==> ClearedRight(zc, env.topology)
  {
    hide ClearZone, Outcome, ClearedRight, LastIsMarginal;
    ClearZoneKeeps(buyIx, sellIx, c.buys, c.sells);
    ClearZoneMargin(buyIx, sellIx, c.buys, c.sells);
    OutcomeIsRight(ClearZone(buyIx, sellIx, c.buys, c.sells), zone, env);
  }

  lemma {:induction false} GroupsAreRight(c: AuctionCycle, demand: seq<ZoneGroup>, supply: seq<ZoneGroup>, env: AuctionEnv)
    requires Auctionable(c.buys, env) && GroupsWithin(demand, |c.buys|) && GroupsWithin(supply, |c.sells|)
    requires forall zc :: zc in c.zones ==> ClearedRight(zc, env.topology)
    ensures forall zc :: zc in ClearGroups(c, demand, supply, env).zones ==> ClearedRight(zc, env.topology)
    decreases |demand|
  {
    hide ClearGroup, MembersOf, ClearedRight;
    if demand != [] {
      MembersWithin(supply, |c.sells|, demand[0].zone);
      match MembersOf(supply, demand[0].zone)
      case None => GroupsAreRight(c, demand[1..], supply, env);
      case Some(sellIx) =>
        GroupIsRight(c, demand[0].zone, demand[0].members, sellIx, env);
        GroupShape(c, demand[0].zone, demand[0].members, sellIx, env);
        GroupsAreRight(ClearGroup(c, demand[0].zone, demand[0].members, sellIx, env), demand[1..], supply, env);
    }
  }

  lemma GroupShape(c: AuctionCycle, zone: Zone, buyIx: seq<nat>, sellIx: seq<nat>, env: AuctionEnv)
    requires Auctionable(c.buys, env) && Within(buyIx, |c.buys|) && Within(sellIx, |c.sells|)
    ensures var r := ClearGroup(c, zone, buyIx, sellIx, env);
      && Auctionable(r.buys, env) && |r.buys| == |c.buys| && |r.sells| == |c.sells|
      && (r.zones == c.zones || exists zc: ZoneClearing :: zc.zone == zone && r.zones == c.zones + [zc])
  {
    hide ClearZone, Volume, SettleFills;
    ClearZoneKeeps(buyIx, sellIx, c.buys, c.sells);
    assert c.zones + [] == c.zones;
  }

  /** Zones are cleared in order: the zone-less first, then by number. */
  ghost predicate ZoneBefore(a: Zone, b: Zone) {
    b.InZone? && (a.NoZone? || a.id < b.id)
  }

  ghost predicate ZonesInOrder(zones: seq<ZoneClearing>) {
    forall i, j :: 0 <= i < j < |zones| ==> ZoneBefore(zones[i].zone, zones[j].zone)
  }

  lemma ZoneKeyBefore(g: ZoneGroup, h: ZoneGroup)
    ensures ZoneKey(g).Less(ZoneKey(h)) <==> ZoneBefore(g.zone, h.zone)
  {
  }

  lemma {:induction false} GroupsInOrder(c: AuctionCycle, demand: seq<ZoneGroup>, supply: seq<ZoneGroup>, env: AuctionEnv)
    requires Auctionable(c.buys, env) && GroupsWithin(demand, |c.buys|) && GroupsWithin(supply, |c.sells|)
    requires StrictlySorted(demand, ZoneKey)
    requires ZonesInOrder(c.zones)
    requires forall i, g :: 0 <= i < |c.zones| && 0 <= g < |demand| ==> ZoneBefore(c.zones[i].zone, demand[g].zone)
    ensures ZonesInOrder(ClearGroups(c, demand, supply, env).zones)
    decreases |demand|
  {
    hide ClearGroup, MembersOf, ZoneKey, ZoneBefore;
    if demand != [] {
      MembersWithin(supply, |c.sells|, demand[0].zone);
      forall g | 0 <= g < |demand[1..]| ensures ZoneBefore(demand[0].zone, demand[1..][g].zone) {
        ZoneKeyBefore(demand[0], demand[g + 1]);
      }
      match MembersOf(supply, demand[0].zone)
      case None => GroupsInOrder(c, demand[1..], supply, env);
      case Some(sellIx) =>
        GroupShape(c, demand[0].zone, demand[0].members, sellIx, env);
        GroupsInOrder(ClearGroup(c, demand[0].zone, demand[0].members, sellIx, env), demand[1..], supply, env);
    }
  }

  /** Every zone a cycle clears is settled at the midpoint of the last pair it matched, with the
      volume of its matches and each charged inside the zone; the zones come in order, each once. */
  lemma ZonesClearRight(buys: seq<FastOrder>, sells: seq<FastOrder>, env: AuctionEnv)
    requires Auctionable(buys, env)
    ensures var zones := AuctionOutcome(buys, sells, env).zones;
      && (forall z :: 0 <= z < |zones| ==> ClearedRight(zones[z], env.topology))
      && ZonesInOrder(zones)
  {
    hide Partition, ClearGroups, ClearedRight, ZoneBefore, ZoneKey, StrictlySorted;
    PartitionWithin(buys, |buys|, env.now);
    PartitionWithin(sells, |sells|, env.now);
    PartitionFiles(buys, |buys|, env.now, NoZone);
    var demand, supply := Partition(buys, |buys|, env.now), Partition(sells, |sells|, env.now);
    GroupsAreRight(AuctionCycle(buys, sells, []), demand, supply, env);
    GroupsInOrder(AuctionCycle(buys, sells, []), demand, supply, env);
  }

  // ---------- The smallest auction ----------

  lemma RankOneBuy(buy: FastOrder)
    ensures Within([0], |[buy]|) && InPriority([0], [buy], true) == [0]
  {
    assert [0][..0] == [];
    assert RankEntries([], [buy], true) == [];
  }

  lemma GroupOfOne(o: FastOrder, now: I64)
    requires o.Resting(now)
    ensures Partition([o], 1, now) == [ZoneGroup(o.zone, [0])]
  {
    assert Partition([o], 0, now) == [];
  }

  /** Two orders of one size and price are swept in a single fill. */
  lemma PairSweeps(buy: FastOrder, sell: FastOrder)
    requires buy.userId != sell.userId && buy.price == sell.price
    requires buy.Remaining() == sell.Remaining() >= MIN_TRADE_AMOUNT
    ensures Within([0], |[buy]|) && Within([0], |[sell]|)
    ensures ClearZone([0], [0], [buy], [sell])
         == Sweep([buy.Fill(buy.Remaining())], [sell.Fill(buy.Remaining())], [Fill(0, 0, buy.Remaining())],
                  Some(Marginal(buy.price, sell.price)))
  {
    RankOneBuy(buy);
    RankOneSell(sell);
    var s := Sweep([buy], [sell], [], None);
    var t := Trade(s, 0, 0);
    assert SweepFrom(t, [0], [0], 1, 1) == t;
    assert SweepFrom(s, [0], [0], 0, 0) == t;
  }

  lemma SamePriceMidpoint(price: I64)
    ensures Midpoint(price, price) == price
  {
  }

  /** Two such orders of one zone clear in one match, at their price. */
  lemma LonePairClears(buy: FastOrder, sell: FastOrder, env: AuctionEnv) returns (x: MatchResult)
    requires buy.Resting(env.now) && sell.Resting(env.now) && buy.zone == sell.zone && buy.metadataIndex < |env.metadata|
    requires buy.userId != sell.userId && buy.price == sell.price && buy.Remaining() == sell.Remaining()
    ensures Auctionable([buy], env) && Flatten(AuctionOutcome([buy], [sell], env).zones) == [x]
    ensures x.buyOrderId == buy.id && x.sellOrderId == sell.id
    ensures x.matchAmount == buy.Remaining() && x.settlePrice == buy.price
  {
    hide ClearZone, Partition, UnitLoss, Volume;
    GroupOfOne(buy, env.now);
    GroupOfOne(sell, env.now);
    PairSweeps(buy, sell);
    SamePriceMidpoint(buy.price);
    var c := AuctionCycle([buy], [sell], []);
    var r := ClearGroup(c, buy.zone, [0], [0], env);
    assert ClearGroups(c, [ZoneGroup(buy.zone, [0])], [ZoneGroup(buy.zone, [0])], env) == r;
    x := r.zones[0].matches[0];
    assert r.zones[0].matches == [x];
    FlattenOne([], Some(r.zones[0]));
    assert Flatten([]) == [] && [] + [r.zones[0]] == r.zones && [] + [x] == [x];
  }
}
