/** The uniform-price auction, in place on the two order slices, against `AuctionSpec`. */
module Auction {
  import opened Options
  import opened FastPrices
  import opened Words
  import opened Orders
  import opened AuctionSpec
  import CdaEngine

  /** Eligible order indices by zone, in zone order. */
  method PartitionByZone(orders: seq<FastOrder>, now: I64) returns (groups: seq<ZoneGroup>)
    ensures groups == Partition(orders, |orders|, now)
  {
    groups := [];
    for idx := 0 to |orders|
      invariant groups == Partition(orders, idx, now)
    {
      if orders[idx].Resting(now) {
        groups := AddMember(groups, orders[idx].zone, idx);
      }
    }
  }

  /** The two-pointer sweep over sorted demand and supply. */
  method SweepInPlace(buys: array<FastOrder>, sells: array<FastOrder>, bi: seq<nat>, si: seq<nat>)
    returns (fills: seq<Fill>, marginal: Option<Marginal>)
    requires buys != sells && Within(bi, buys.Length) && Within(si, sells.Length)
    modifies buys, sells
    ensures Sweep(buys[..], sells[..], fills, marginal) == SweepFrom(Sweep(old(buys[..]), old(sells[..]), [], None), bi, si, 0, 0)
  {
    fills, marginal := [], None;
    var i, j := 0, 0;
    while i < |bi| && j < |si|
      invariant i <= |bi| && j <= |si|
      invariant SweepFrom(Sweep(buys[..], sells[..], fills, marginal), bi, si, i, j)
             == SweepFrom(Sweep(old(buys[..]), old(sells[..]), [], None), bi, si, 0, 0)
      decreases |bi| - i + |si| - j
    {
      var b, a := bi[i], si[j];
      ghost var s := Sweep(buys[..], sells[..], fills, marginal);
      if buys[b].price < sells[a].price {
        break;
      }
      if buys[b].userId == sells[a].userId {
        j := j + 1;
        continue;
      }
      if buys[b].Remaining() < MIN_TRADE_AMOUNT {
        i := i + 1;
        continue;
      }
      if sells[a].Remaining() < MIN_TRADE_AMOUNT {
        j := j + 1;
        continue;
      }
      var amount := Min(buys[b].Remaining(), sells[a].Remaining());
      fills := fills + [Fill(b, a, amount)];
      buys[b] := buys[b].Fill(amount);
      sells[a] := sells[a].Fill(amount);
      marginal := Some(Marginal(buys[b].price, sells[a].price));
      assert Sweep(buys[..], sells[..], fills, marginal) == Trade(s, b, a);
      if buys[b].Remaining() < MIN_TRADE_AMOUNT {
        i := i + 1;
      }
      if sells[a].Remaining() < MIN_TRADE_AMOUNT {
        j := j + 1;
      }
    }
  }

  /** Price every fill of a zone at its one clearing price. */
  method Settle(fills: seq<Fill>, zone: Zone, price: I64, buys: seq<FastOrder>, sells: seq<FastOrder>, env: AuctionEnv)
    returns (clearing: ZoneClearing)
    requires Settleable(fills, buys, sells, env.metadata)
    ensures var matches := SettleFills(fills, zone, price, buys, sells, env.metadata, env.topology);
      clearing == ZoneClearing(zone, price, Volume(matches), matches)
  {
    ghost var all := SettleFills(fills, zone, price, buys, sells, env.metadata, env.topology);
    var matches: seq<MatchResult>, volume := [], 0;
    for k := 0 to |fills|
      invariant matches == all[..k] && volume == Volume(matches)
    {
      var x := SettleFill(fills[k], zone, price, buys, sells, env.metadata, env.topology);
      CdaEngine.VolumeExtend(matches, x);
      volume := volume + fills[k].amount;
      matches := matches + [x];
    }
    assert matches == all;
    clearing := ZoneClearing(zone, price, volume, matches);
  }

  method ClearZoneInPlace(zone: Zone, buyIx: seq<nat>, sellIx: seq<nat>, buys: array<FastOrder>, sells: array<FastOrder>,
                          env: AuctionEnv)
    returns (clearing: Option<ZoneClearing>)
    requires buys != sells && Within(buyIx, buys.Length) && Within(sellIx, sells.Length)
    requires Auctionable(buys[..], env)
    modifies buys, sells
    ensures AuctionCycle(buys[..], sells[..], if clearing.Some? then [clearing.value] else [])
         == ClearGroup(AuctionCycle(old(buys[..]), old(sells[..]), []), zone, buyIx, sellIx, env)
    ensures clearing.Some? ==> clearing.value.zone == zone && ClearsAtMidpoint(clearing.value)
  {
    ClearZoneMargin(buyIx, sellIx, buys[..], sells[..]);
    ghost var s := ClearZone(buyIx, sellIx, buys[..], sells[..]);
    RankedWithin(buyIx, buys[..], true);
    RankedWithin(sellIx, sells[..], false);
    ClearZoneKeeps(buyIx, sellIx, buys[..], sells[..]);
    OutcomePrice(s, zone, env.metadata, env.topology);
    hide ClearsAtMidpoint, LastIsMarginal;
    var fills, marginal := SweepInPlace(buys, sells, InPriority(buyIx, buys[..], true), InPriority(sellIx, sells[..], false));
    if marginal.None? || fills == [] {
      return None;
    }
    var price := Midpoint(marginal.value.bid, marginal.value.ask);
    var settled := Settle(fills, zone, price, buys[..], sells[..], env);
    clearing := Some(settled);
  }

  /** One clearing cycle: each zone's demand against its own supply. */
  method ClearCycle(buys: array<FastOrder>, sells: array<FastOrder>, env: AuctionEnv)
    returns (zones: seq<ZoneClearing>, stats: CycleStats)
    requires buys != sells && Auctionable(buys[..], env)
    modifies buys, sells
    ensures AuctionCycle(buys[..], sells[..], zones) == AuctionOutcome(old(buys[..]), old(sells[..]), env)
    ensures stats == CycleStats(|Flatten(zones)|, TotalCleared(zones), [])
    ensures forall z :: 0 <= z < |zones| ==> ClearsAtMidpoint(zones[z])
  {
    hide ClearGroup, ClearZone, ClearsAtMidpoint;
    var demand := PartitionByZone(buys[..], env.now);
    var supply := PartitionByZone(sells[..], env.now);
    PartitionWithin(buys[..], buys.Length, env.now);
    PartitionWithin(sells[..], sells.Length, env.now);
    zones := [];
    var created, volume := 0, 0;
    var k := 0;
    while k < |demand|
      invariant k <= |demand|
      invariant Auctionable(buys[..], env)
      invariant ClearGroups(AuctionCycle(buys[..], sells[..], zones), demand[k..], supply, env)
             == AuctionOutcome(old(buys[..]), old(sells[..]), env)
      invariant created == |Flatten(zones)| && volume == TotalCleared(zones)
      invariant forall z :: 0 <= z < |zones| ==> ClearsAtMidpoint(zones[z])
    {
      var zone, buyIx := demand[k].zone, demand[k].members;
      MembersWithin(supply, sells.Length, zone);
      var sellIx := MembersOf(supply, zone);
      ghost var before := AuctionCycle(buys[..], sells[..], zones);
      assert demand[k..][0] == demand[k] && demand[k..][1..] == demand[k + 1..];
      k := k + 1;
      if sellIx.None? {
        continue;
      }
      ClearZoneKeeps(buyIx, sellIx.value, buys[..], sells[..]);
      var clearing := ClearZoneInPlace(zone, buyIx, sellIx.value, buys, sells, env);
      GroupAppends(before, zone, buyIx, sellIx.value, env);
      assert before.zones + [] == before.zones;
      if clearing.Some? {
        created := created + |clearing.value.matches|;
        volume := volume + clearing.value.clearedVolume;
        assert (zones + [clearing.value])[..|zones|] == zones;
        zones := zones + [clearing.value];
      }
    }
    stats := CycleStats(created, volume, []);
  }

  /** What a zone adds to the cycle does not depend on the zones already cleared. */
  lemma GroupAppends(c: AuctionCycle, zone: Zone, buyIx: seq<nat>, sellIx: seq<nat>, env: AuctionEnv)
    requires Auctionable(c.buys, env) && Within(buyIx, |c.buys|) && Within(sellIx, |c.sells|)
    ensures var one := ClearGroup(c.(zones := []), zone, buyIx, sellIx, env);
      && ClearGroup(c, zone, buyIx, sellIx, env) == one.(zones := c.zones + one.zones)
      && Auctionable(one.buys, env)
  {
    ClearZoneKeeps(buyIx, sellIx, c.buys, c.sells);
  }
}
