/** Zones are cleared independently: a cycle does to each zone what clearing it alone does. */
module AuctionZones {
  import opened Options
  import opened FastPrices
  import opened Words
  import opened Orders
  import opened Ordering
  import opened CdaSpec
  import opened AuctionSpec

  // ---------- The partition ----------

  lemma {:induction false} AddMemberFinds(groups: seq<ZoneGroup>, zone: Zone, idx: nat, z: Zone)
    requires StrictlySorted(groups, ZoneKey)
    ensures MembersOf(AddMember(groups, zone, idx), z)
         == if z == zone then Some((match MembersOf(groups, z) case None => [] case Some(ms) => ms) + [idx])
            else MembersOf(groups, z)
  {
    var key := ZoneKey(ZoneGroup(zone, []));
    if groups == [] {
    } else if key.Less(ZoneKey(groups[0])) {
      AbsentBefore(groups, zone);
      assert [] + [idx] == [idx];
      assert ([ZoneGroup(zone, [idx])] + groups)[1..] == groups;
    } else if groups[0].zone == zone {
      assert ([groups[0].(members := groups[0].members + [idx])] + groups[1..])[1..] == groups[1..];
    } else {
      AddMemberFinds(groups[1..], zone, idx, z);
      var rest := AddMember(groups[1..], zone, idx);
      assert ([groups[0]] + rest)[1..] == rest;
    }
  }

  /** A zone that sorts before every group has none. */
  lemma {:induction false} AbsentBefore(groups: seq<ZoneGroup>, zone: Zone)
    requires StrictlySorted(groups, ZoneKey) && groups != [] && ZoneKey(ZoneGroup(zone, [])).Less(ZoneKey(groups[0]))
    ensures MembersOf(groups, zone).None?
  {
    if |groups| > 1 {
      assert ZoneKey(groups[0]).Less(ZoneKey(groups[1]));
      AbsentBefore(groups[1..], zone);
    }
  }

  lemma {:induction false} AddMemberSorted(groups: seq<ZoneGroup>, zone: Zone, idx: nat)
    requires StrictlySorted(groups, ZoneKey)
    ensures var r := AddMember(groups, zone, idx);
      StrictlySorted(r, ZoneKey) && r != []
      && ((groups != [] && ZoneKey(r[0]) == ZoneKey(groups[0])) || ZoneKey(r[0]) == ZoneKey(ZoneGroup(zone, [])))
  {
    var key := ZoneKey(ZoneGroup(zone, []));
    if groups == [] {
    } else if key.Less(ZoneKey(groups[0])) {
      SortedCons(ZoneGroup(zone, [idx]), groups);
    } else if groups[0].zone == zone {
      SortedCons(groups[0].(members := groups[0].members + [idx]), groups[1..]);
    } else {
      AddMemberSorted(groups[1..], zone, idx);
      SortedCons(groups[0], AddMember(groups[1..], zone, idx));
    }
  }

  lemma SortedCons(g: ZoneGroup, groups: seq<ZoneGroup>)
    requires StrictlySorted(groups, ZoneKey) && (groups == [] || ZoneKey(g).Less(ZoneKey(groups[0])))
    ensures StrictlySorted([g] + groups, ZoneKey)
  {
    forall j | 0 <= j < |groups| ensures ZoneKey(g).Less(ZoneKey(groups[j])) {
      assert j > 0 ==> ZoneKey(groups[0]).Less(ZoneKey(groups[j]));
    }
  }

  /** What one more order does to the members of a zone, and what no order gives. */
  lemma PartitionStep(orders: seq<FastOrder>, n: nat, now: I64, z: Zone)
    requires n <= |orders|
    ensures n == 0 ==> Members(orders, n, z, now) == [] && MembersOf([], z) == None && StrictlySorted([], ZoneKey)
    ensures n > 0 ==>
      Members(orders, n, z, now)
      == Members(orders, n - 1, z, now) + (if orders[n - 1].Resting(now) && orders[n - 1].zone == z then [n - 1] else [])
  {
  }

  /** The partition is in zone order, and files under each zone exactly its tradeable orders. */
  lemma {:induction false} PartitionFiles(orders: seq<FastOrder>, n: nat, now: I64, z: Zone)
    requires n <= |orders|
    ensures StrictlySorted(Partition(orders, n, now), ZoneKey)
    ensures var ms := Members(orders, n, z, now);
      MembersOf(Partition(orders, n, now), z) == if ms == [] then None else Some(ms)
  {
    hide StrictlySorted, AddMember, MembersOf, Members;
    PartitionStep(orders, n, now, z);
    if n > 0 {
      PartitionFiles(orders, n - 1, now, z);
      var before := Members(orders, n - 1, z, now);
      assert before + [] == before && (before == [] ==> before + [n - 1] == [] + [n - 1]);
      if orders[n - 1].Resting(now) {
        AddMemberSorted(Partition(orders, n - 1, now), orders[n - 1].zone, n - 1);
        AddMemberFinds(Partition(orders, n - 1, now), orders[n - 1].zone, n - 1, z);
      }
    }
  }

  // ---------- A sweep sees only its own orders ----------

  /** The two slices agree on the listed orders. */
  ghost predicate Agree(a: seq<FastOrder>, b: seq<FastOrder>, ix: seq<nat>) {
    |a| == |b| && Within(ix, |a|) && forall k :: 0 <= k < |ix| ==> a[ix[k]] == b[ix[k]]
  }

  ghost predicate SweepsAgree(s: Sweep, t: Sweep, bi: seq<nat>, si: seq<nat>) {
    Agree(s.buys, t.buys, bi) && Agree(s.sells, t.sells, si) && s.fills == t.fills && s.marginal == t.marginal
  }

  lemma {:induction false} SweepIsLocal(s: Sweep, t: Sweep, bi: seq<nat>, si: seq<nat>, i: nat, j: nat)
    requires SweepsAgree(s, t, bi, si) && i <= |bi| && j <= |si|
    ensures SweepsAgree(SweepFrom(s, bi, si, i, j), SweepFrom(t, bi, si, i, j), bi, si)
    decreases |bi| - i + |si| - j
  {
    if i < |bi| && j < |si| && s.buys[bi[i]].price >= s.sells[si[j]].price {
      var buy, sell := s.buys[bi[i]], s.sells[si[j]];
      if buy.userId == sell.userId {
        SweepIsLocal(s, t, bi, si, i, j + 1);
      } else if buy.Remaining() < MIN_TRADE_AMOUNT {
        SweepIsLocal(s, t, bi, si, i + 1, j);
      } else if sell.Remaining() < MIN_TRADE_AMOUNT {
        SweepIsLocal(s, t, bi, si, i, j + 1);
      } else {
        var s', t' := Trade(s, bi[i], si[j]), Trade(t, bi[i], si[j]);
        SweepIsLocal(s', t', bi, si, if s'.buys[bi[i]].Remaining() < MIN_TRADE_AMOUNT then i + 1 else i,
                     if s'.sells[si[j]].Remaining() < MIN_TRADE_AMOUNT then j + 1 else j);
      }
    }
  }

  lemma {:induction false} RankIsLocal(a: seq<FastOrder>, b: seq<FastOrder>, ix: seq<nat>, demand: bool)
    requires Agree(a, b, ix)
    ensures RankEntries(ix, a, demand) == RankEntries(ix, b, demand)
  {
    if ix != [] {
      RankIsLocal(a, b, ix[..|ix| - 1], demand);
    }
  }

  /** Clearing the same zone lists in two books that agree on them gives the same fills, the
      same marginal pair and the same filled orders. */
  lemma ClearZoneIsLocal(buyIx: seq<nat>, sellIx: seq<nat>, buys: seq<FastOrder>, sells: seq<FastOrder>,
                         buys': seq<FastOrder>, sells': seq<FastOrder>)
    requires Agree(buys, buys', buyIx) && Agree(sells, sells', sellIx)
    ensures SweepsAgree(ClearZone(buyIx, sellIx, buys, sells), ClearZone(buyIx, sellIx, buys', sells'), buyIx, sellIx)
  {
    hide SweepFrom, RankEntries;
    RankIsLocal(buys, buys', buyIx, true);
    RankIsLocal(sells, sells', sellIx, false);
    var bi, si := InPriority(buyIx, buys, true), InPriority(sellIx, sells, false);
    RankedWithin(buyIx, buys, true);
    RankedWithin(sellIx, sells, false);
    ListsAgree(buys, buys', buyIx, bi);
    ListsAgree(sells, sells', sellIx, si);
    SweepIsLocal(Sweep(buys, sells, [], None), Sweep(buys', sells', [], None), bi, si, 0, 0);
    var r, r' := ClearZone(buyIx, sellIx, buys, sells), ClearZone(buyIx, sellIx, buys', sells');
    ClearZoneKeeps(buyIx, sellIx, buys, sells);
    ClearZoneKeeps(buyIx, sellIx, buys', sells');
    RankedCovers(buyIx, buys, true, r.buys, r'.buys);
    RankedCovers(sellIx, sells, false, r.sells, r'.sells);
  }

  lemma ListsAgree(a: seq<FastOrder>, b: seq<FastOrder>, ix: seq<nat>, iy: seq<nat>)
    requires Agree(a, b, ix) && forall k :: 0 <= k < |iy| ==> iy[k] in ix
    ensures Agree(a, b, iy)
  {
  }

  lemma RankedCovers(ix: seq<nat>, orders: seq<FastOrder>, demand: bool, a: seq<FastOrder>, b: seq<FastOrder>)
    requires Within(ix, |orders|) && |a| == |orders| && Agree(a, b, InPriority(ix, orders, demand))
    ensures Agree(a, b, ix)
  {
    forall k | 0 <= k < |ix| ensures a[ix[k]] == b[ix[k]] {
      var e := Entry(Priority(orders[ix[k]], demand), ix[k]);
      RankEntriesOf(ix, orders, demand, e);
      var p :| 0 <= p < |RankEntries(ix, orders, demand)| && RankEntries(ix, orders, demand)[p] == e;
      assert InPriority(ix, orders, demand)[p] == ix[k];
    }
  }

  // ---------- The cycle, zone by zone ----------

  /** In `c`, zone `z` has these orders and this clearing. */
  ghost predicate ZoneStands(c: AuctionCycle, z: Zone, buys: seq<FastOrder>, sells: seq<FastOrder>, clearing: Option<ZoneClearing>) {
    && SameOrders(buys, c.buys) && SameOrders(sells, c.sells)
    && (forall k :: 0 <= k < |buys| && buys[k].zone == z ==> c.buys[k] == buys[k])
    && (forall k :: 0 <= k < |sells| && sells[k].zone == z ==> c.sells[k] == sells[k])
    && (forall zc :: zc in c.zones && zc.zone == z <==> clearing == Some(zc))
  }

  ghost predicate AllOfZone(ix: seq<nat>, orders: seq<FastOrder>, z: Zone) {
    Within(ix, |orders|) && forall k :: 0 <= k < |ix| ==> orders[ix[k]].zone == z
  }

  lemma AllOfZoneKept(ix: seq<nat>, orders: seq<FastOrder>, orders': seq<FastOrder>, z: Zone)
    requires AllOfZone(ix, orders, z) && SameOrders(orders, orders')
    ensures AllOfZone(ix, orders', z)
  {
    forall k | 0 <= k < |ix| ensures orders'[ix[k]].zone == z {
      assert orders[ix[k]].SameTerms(orders'[ix[k]]);
    }
  }

  /** Clearing another zone leaves this one standing. */
  lemma OtherZoneCleared(c: AuctionCycle, y: Zone, buyIx: seq<nat>, sellIx: seq<nat>, env: AuctionEnv,
                         z: Zone, buys: seq<FastOrder>, sells: seq<FastOrder>, clearing: Option<ZoneClearing>)
    requires Auctionable(c.buys, env) && y != z && ZoneStands(c, z, buys, sells, clearing)
    requires AllOfZone(buyIx, buys, y) && AllOfZone(sellIx, sells, y)
    ensures ZoneStands(ClearGroup(c, y, buyIx, sellIx, env), z, buys, sells, clearing)
  {
    hide ClearZone;
    ClearZoneKeeps(buyIx, sellIx, c.buys, c.sells);
    var r := ClearGroup(c, y, buyIx, sellIx, env);
    assert forall zc :: zc in r.zones && zc.zone == z <==> zc in c.zones && zc.zone == z;
  }

  /** What a zone's sweep settles depends on its own orders only. */
  lemma OutcomeIsLocal(s: Sweep, t: Sweep, zone: Zone, buyIx: seq<nat>, sellIx: seq<nat>, env: AuctionEnv)
    requires SweepsAgree(s, t, buyIx, sellIx) && FillsAmong(s.fills, buyIx, sellIx)
    requires Settleable(s.fills, s.buys, s.sells, env.metadata) && Settleable(t.fills, t.buys, t.sells, env.metadata)
    ensures Outcome(s, zone, env.metadata, env.topology) == Outcome(t, zone, env.metadata, env.topology)
  {
    if s.marginal.Some? {
      var price := Midpoint(s.marginal.value.bid, s.marginal.value.ask);
      assert SettleFills(s.fills, zone, price, s.buys, s.sells, env.metadata, env.topology)
          == SettleFills(t.fills, zone, price, t.buys, t.sells, env.metadata, env.topology);
    }
  }

  /** What clearing zone `z` alone, from the given book, would leave and settle. */
  function Alone(buyIx: seq<nat>, sellIx: seq<nat>, buys: seq<FastOrder>, sells: seq<FastOrder>, z: Zone, env: AuctionEnv): AuctionCycle
    requires Auctionable(buys, env) && Within(buyIx, |buys|) && Within(sellIx, |sells|)
  {
    ClearGroup(AuctionCycle(buys, sells, []), z, buyIx, sellIx, env)
  }

  ghost function ClearingOf(c: AuctionCycle): Option<ZoneClearing> { if c.zones == [] then None else Some(c.zones[0]) }

  /** Clearing the zone itself, within a cycle that has not touched it, is clearing it alone. */
  lemma OwnZoneCleared(c: AuctionCycle, z: Zone, buyIx: seq<nat>, sellIx: seq<nat>, env: AuctionEnv,
                       buys: seq<FastOrder>, sells: seq<FastOrder>)
    requires Auctionable(buys, env) && Auctionable(c.buys, env) && ZoneStands(c, z, buys, sells, None)
    requires AllOfZone(buyIx, buys, z) && AllOfZone(sellIx, sells, z)
    ensures var alone := Alone(buyIx, sellIx, buys, sells, z, env);
      ZoneStands(ClearGroup(c, z, buyIx, sellIx, env), z, alone.buys, alone.sells, ClearingOf(alone))
  {
    hide ClearZone, FillsAmong, SettleFills, Volume;
    ClearZoneKeeps(buyIx, sellIx, c.buys, c.sells);
    ClearZoneKeeps(buyIx, sellIx, buys, sells);
    ClearZoneIsLocal(buyIx, sellIx, c.buys, c.sells, buys, sells);
    var s, t := ClearZone(buyIx, sellIx, c.buys, c.sells), ClearZone(buyIx, sellIx, buys, sells);
    OutcomeIsLocal(s, t, z, buyIx, sellIx, env);
    var r, alone := ClearGroup(c, z, buyIx, sellIx, env), Alone(buyIx, sellIx, buys, sells, z, env);
    SideAgrees(r.buys, buys, alone.buys, buyIx, c.buys, z);
    SideAgrees(r.sells, sells, alone.sells, sellIx, c.sells, z);
    assert SameOrders(alone.buys, r.buys) && SameOrders(alone.sells, r.sells) by {
      SameOrdersJoin(buys, c.buys, r.buys, alone.buys);
      SameOrdersJoin(sells, c.sells, r.sells, alone.sells);
    }
  }

  /** One side of the zone after clearing it in a cycle and alone. */
  lemma SideAgrees(cleared: seq<FastOrder>, orders: seq<FastOrder>, alone: seq<FastOrder>, ix: seq<nat>, before: seq<FastOrder>, z: Zone)
    requires SameOrders(orders, alone) && |before| == |orders| == |cleared| && Within(ix, |orders|)
    requires forall k :: 0 <= k < |orders| && orders[k].zone == z ==> before[k] == orders[k]
    requires forall k :: 0 <= k < |orders| && k !in ix ==> cleared[k] == before[k] && alone[k] == orders[k]
    requires forall a :: 0 <= a < |ix| ==> cleared[ix[a]] == alone[ix[a]]
    ensures forall k :: 0 <= k < |orders| && alone[k].zone == z ==> cleared[k] == alone[k]
  {
    forall k | 0 <= k < |orders| && alone[k].zone == z ensures cleared[k] == alone[k] {
      assert orders[k].SameTerms(alone[k]);
      if k in ix {
        var a :| 0 <= a < |ix| && ix[a] == k;
      }
    }
  }

  lemma SameOrdersJoin(a: seq<FastOrder>, b: seq<FastOrder>, c: seq<FastOrder>, d: seq<FastOrder>)
    requires SameOrders(a, b) && SameOrders(b, c) && SameOrders(a, d)
    ensures SameOrders(d, c)
  {
  }

  /** Each zone's groups hold orders of that zone. */
  ghost predicate Filed(demand: seq<ZoneGroup>, buys: seq<FastOrder>) {
    forall g :: 0 <= g < |demand| ==> AllOfZone(demand[g].members, buys, demand[g].zone)
  }

  lemma {:induction false} FiledMembers(groups: seq<ZoneGroup>, orders: seq<FastOrder>, z: Zone)
    requires Filed(groups, orders) && MembersOf(groups, z).Some?
    ensures AllOfZone(MembersOf(groups, z).value, orders, z)
  {
    if groups[0].zone != z {
      FiledMembers(groups[1..], orders, z);
    }
  }

  /** A zone without a demand group left, or without supply, is not touched any more. */
  lemma {:induction false} RestLeavesZone(c: AuctionCycle, demand: seq<ZoneGroup>, supply: seq<ZoneGroup>, env: AuctionEnv,
                                          z: Zone, buys: seq<FastOrder>, sells: seq<FastOrder>, clearing: Option<ZoneClearing>)
    requires Auctionable(c.buys, env) && Filed(demand, buys) && Filed(supply, sells)
    requires ZoneStands(c, z, buys, sells, clearing) && (MembersOf(demand, z).None? || MembersOf(supply, z).None?)
    ensures GroupsWithin(demand, |c.buys|) && GroupsWithin(supply, |c.sells|)
    ensures ZoneStands(ClearGroups(c, demand, supply, env), z, buys, sells, clearing)
    decreases |demand|
  {
    hide ClearGroup, MembersOf;
    if demand != [] {
      MembersOfTail(demand, z);
      MembersWithin(supply, |c.sells|, demand[0].zone);
      match MembersOf(supply, demand[0].zone)
      case None =>
        RestLeavesZone(c, demand[1..], supply, env, z, buys, sells, clearing);
      case Some(sellIx) =>
        FiledMembers(supply, sells, demand[0].zone);
        ClearZoneKeeps(demand[0].members, sellIx, c.buys, c.sells);
        OtherZoneCleared(c, demand[0].zone, demand[0].members, sellIx, env, z, buys, sells, clearing);
        var next := ClearGroup(c, demand[0].zone, demand[0].members, sellIx, env);
        GroupKeepsAuctionable(c, demand[0].zone, demand[0].members, sellIx, env);
        RestLeavesZone(next, demand[1..], supply, env, z, buys, sells, clearing);
    }
  }

  lemma MembersOfTail(groups: seq<ZoneGroup>, z: Zone)
    ensures MembersOf(groups, z) == if groups == [] then None else if groups[0].zone == z then Some(groups[0].members) else MembersOf(groups[1..], z)
  {
  }

  lemma GroupKeepsAuctionable(c: AuctionCycle, zone: Zone, buyIx: seq<nat>, sellIx: seq<nat>, env: AuctionEnv)
    requires Auctionable(c.buys, env) && Within(buyIx, |c.buys|) && Within(sellIx, |c.sells|)
    ensures var r := ClearGroup(c, zone, buyIx, sellIx, env);
      Auctionable(r.buys, env) && |r.buys| == |c.buys| && |r.sells| == |c.sells|
  {
    ClearZoneKeeps(buyIx, sellIx, c.buys, c.sells);
  }

  /** No two groups share a zone, so a cleared zone is not met again. */
  lemma HeadZoneOnce(groups: seq<ZoneGroup>)
    requires StrictlySorted(groups, ZoneKey) && groups != []
    ensures MembersOf(groups[1..], groups[0].zone).None?
  {
    if |groups| > 1 {
      assert ZoneKey(groups[0]).Less(ZoneKey(groups[1]));
      AbsentBefore(groups[1..], groups[0].zone);
    }
  }

  lemma {:induction false} GroupsClearAlone(c: AuctionCycle, demand: seq<ZoneGroup>, supply: seq<ZoneGroup>, env: AuctionEnv,
                                            z: Zone, buys: seq<FastOrder>, sells: seq<FastOrder>, buyIx: seq<nat>, sellIx: seq<nat>)
    requires Auctionable(c.buys, env) && Auctionable(buys, env) && Filed(demand, buys) && Filed(supply, sells)
    requires StrictlySorted(demand, ZoneKey) && ZoneStands(c, z, buys, sells, None)
    requires MembersOf(demand, z) == Some(buyIx) && MembersOf(supply, z) == Some(sellIx)
    ensures GroupsWithin(demand, |c.buys|) && GroupsWithin(supply, |c.sells|)
    ensures Within(buyIx, |buys|) && Within(sellIx, |sells|)
    ensures var alone := Alone(buyIx, sellIx, buys, sells, z, env);
      ZoneStands(ClearGroups(c, demand, supply, env), z, alone.buys, alone.sells, ClearingOf(alone))
    decreases |demand|
  {
    hide ClearGroup, MembersOf, Alone;
    FiledMembers(demand, buys, z);
    FiledMembers(supply, sells, z);
    MembersOfTail(demand, z);
    var head := demand[0];
    MembersWithin(supply, |c.sells|, head.zone);
    if head.zone == z {
      OwnZoneCleared(c, z, buyIx, sellIx, env, buys, sells);
      GroupKeepsAuctionable(c, z, buyIx, sellIx, env);
      HeadZoneOnce(demand);
      var alone := Alone(buyIx, sellIx, buys, sells, z, env);
      AloneKeeps(buyIx, sellIx, buys, sells, z, env);
      FiledKept(demand, buys, alone.buys);
      FiledKept(supply, sells, alone.sells);
      RestLeavesZone(ClearGroup(c, z, buyIx, sellIx, env), demand[1..], supply, env, z, alone.buys, alone.sells, ClearingOf(alone));
    } else {
      match MembersOf(supply, head.zone)
      case None =>
        GroupsClearAlone(c, demand[1..], supply, env, z, buys, sells, buyIx, sellIx);
      case Some(otherIx) =>
        FiledMembers(supply, sells, head.zone);
        OtherZoneCleared(c, head.zone, head.members, otherIx, env, z, buys, sells, None);
        GroupKeepsAuctionable(c, head.zone, head.members, otherIx, env);
        GroupsClearAlone(ClearGroup(c, head.zone, head.members, otherIx, env), demand[1..], supply, env, z, buys, sells, buyIx, sellIx);
    }
  }

  lemma AloneKeeps(buyIx: seq<nat>, sellIx: seq<nat>, buys: seq<FastOrder>, sells: seq<FastOrder>, z: Zone, env: AuctionEnv)
    requires Auctionable(buys, env) && Within(buyIx, |buys|) && Within(sellIx, |sells|)
    ensures var alone := Alone(buyIx, sellIx, buys, sells, z, env);
      SameOrders(buys, alone.buys) && SameOrders(sells, alone.sells)
  {
    ClearZoneKeeps(buyIx, sellIx, buys, sells);
  }

  lemma FiledKept(groups: seq<ZoneGroup>, orders: seq<FastOrder>, orders': seq<FastOrder>)
    requires Filed(groups, orders) && SameOrders(orders, orders')
    ensures Filed(groups, orders')
  {
    forall g | 0 <= g < |groups| ensures AllOfZone(groups[g].members, orders', groups[g].zone) {
      AllOfZoneKept(groups[g].members, orders, orders', groups[g].zone);
    }
  }

  lemma {:induction false} PartitionFiled(orders: seq<FastOrder>, now: I64)
    ensures Filed(Partition(orders, |orders|, now), orders)
  {
    var groups := Partition(orders, |orders|, now);
    forall g | 0 <= g < |groups| ensures AllOfZone(groups[g].members, orders, groups[g].zone) {
      PartitionFiles(orders, |orders|, now, groups[g].zone);
      FindsOwn(groups, g);
    }
  }

  lemma {:induction false} FindsOwn(groups: seq<ZoneGroup>, g: nat)
    requires StrictlySorted(groups, ZoneKey) && g < |groups|
    ensures MembersOf(groups, groups[g].zone) == Some(groups[g].members)
  {
    if g > 0 {
      assert ZoneKey(groups[0]).Less(ZoneKey(groups[g]));
      FindsOwn(groups[1..], g - 1);
    }
  }

  /** Zone independence: after a cycle each zone's orders, and its clearing if any, are exactly
      those of clearing its tradeable orders alone; no zone clears twice. */
  lemma ZoneClearsAlone(buys: seq<FastOrder>, sells: seq<FastOrder>, env: AuctionEnv, z: Zone)
    requires Auctionable(buys, env)
    ensures var c := AuctionOutcome(buys, sells, env);
      var alone := Alone(Members(buys, |buys|, z, env.now), Members(sells, |sells|, z, env.now), buys, sells, z, env);
      ZoneStands(c, z, alone.buys, alone.sells, ClearingOf(alone))
  {
    hide ClearGroups, MembersOf, Partition, Members, Alone, Filed, ZoneStands, StrictlySorted, GroupsWithin;
    FreshStands(buys, sells, z);
    var demand, supply := Partition(buys, |buys|, env.now), Partition(sells, |sells|, env.now);
    var buyIx, sellIx := Members(buys, |buys|, z, env.now), Members(sells, |sells|, z, env.now);
    PartitionWithin(buys, |buys|, env.now);
    PartitionWithin(sells, |sells|, env.now);
    PartitionFiles(buys, |buys|, env.now, z);
    PartitionFiles(sells, |sells|, env.now, z);
    PartitionFiled(buys, env.now);
    PartitionFiled(sells, env.now);
    var start := AuctionCycle(buys, sells, []);
    if buyIx != [] && sellIx != [] {
      GroupsClearAlone(start, demand, supply, env, z, buys, sells, buyIx, sellIx);
    } else {
      RestLeavesZone(start, demand, supply, env, z, buys, sells, None);
      NothingToClear(buyIx, sellIx, buys, sells, z, env);
    }
  }

  lemma FreshStands(buys: seq<FastOrder>, sells: seq<FastOrder>, z: Zone)
    ensures ZoneStands(AuctionCycle(buys, sells, []), z, buys, sells, None)
  {
  }

  lemma NothingToClear(buyIx: seq<nat>, sellIx: seq<nat>, buys: seq<FastOrder>, sells: seq<FastOrder>, z: Zone, env: AuctionEnv)
    requires Auctionable(buys, env) && Within(buyIx, |buys|) && Within(sellIx, |sells|) && (buyIx == [] || sellIx == [])
    ensures Alone(buyIx, sellIx, buys, sells, z, env) == AuctionCycle(buys, sells, [])
  {
    assert InPriority(buyIx, buys, true) == [] || InPriority(sellIx, sells, false) == [];
  }
}
