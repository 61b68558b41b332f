/** Exactly when the optimistic pass with its one rebuild is the naive matcher: for one buy, and
    for a grid over every cycle. */
module CdaExactness {
  import opened Options
  import opened FastPrices
  import opened Words
  import opened Orders
  import opened Ordering
  import opened Pricing
  import opened CdaSpec
  import opened CdaGather
  import opened CdaEngine
  import opened CdaRefinement
  import opened CdaSafety

  // ---------- One buy ----------

  function FullDrain(m: Market, env: Env): Market
    requires Servable(m, env)
  {
    Drain(m, AllCandidates(m.sells, m.buy, m.buy.Remaining(), env), env)
  }

  /** The optimistic pass filled the buy, or was not cut short, or left nothing in the prefix it
      drained that could be filled any further. */
  ghost predicate NothingToRevisit(m: Market, env: Env)
    requires Servable(m, env)
  {
    var need := m.buy.Remaining();
    var all := AllCandidates(m.sells, m.buy, need, env);
    var n := CoverFrom(all, m.sells, need, 0);
    var first := Drain(m, all[..n], env);
    DrainKeepsTerms(m, all[..n], env);
    || first.buy.Remaining() < MIN_TRADE_AMOUNT
    || Supply(all[..n], m.sells) < need
    || AllStuck(first, all[..n], env)
  }

  /** A drain leaves alone the sells it is not given. */
  lemma {:induction false} DrainLeavesOthers(m: Market, cands: seq<Candidate>, env: Env, i: nat)
    requires Servable(m, env) && Indexed(cands, |m.sells|) && i < |m.sells|
    requires forall k :: 0 <= k < |cands| ==> cands[k].sellIdx != i
    ensures |Drain(m, cands, env).sells| == |m.sells| && Drain(m, cands, env).sells[i] == m.sells[i]
    decreases |cands|
  {
    DrainKeepsTerms(m, cands, env);
    if cands != [] && m.buy.Remaining() >= MIN_TRADE_AMOUNT {
      DrainLeavesOthers(FillOne(m, cands[0], env), cands[1..], env, i);
    }
  }

  /** Draining again from a candidate that is not stuck fills its sell further. */
  lemma UnstuckFills(m: Market, cands: seq<Candidate>, k: nat, env: Env)
    requires Servable(m, env) && Indexed(cands, |m.sells|) && k < |cands| && m.buy.Remaining() >= MIN_TRADE_AMOUNT
    requires AllStuck(m, cands[..k], env) && !Stuck(m, cands[k], env)
    ensures |Drain(m, cands, env).sells| == |m.sells|
    ensures Drain(m, cands, env).sells[cands[k].sellIdx].Remaining() < m.sells[cands[k].sellIdx].Remaining()
  {
    hide Drain;
    assert cands == cands[..k] + cands[k..];
    DrainAppend(m, cands[..k], cands[k..], env);
    DrainOfStuck(m, cands[..k], env);
    DrainFrom(m, cands[k..], env);
    assert cands[k..][0] == cands[k] && cands[k..][1..] == cands[k + 1..];
    var next := FillOne(m, cands[k], env);
    DrainOnlyFillsSells(next, cands[k + 1..], env);
    assert next.sells[cands[k].sellIdx].Remaining() < m.sells[cands[k].sellIdx].Remaining();
  }

  lemma DrainFrom(m: Market, cands: seq<Candidate>, env: Env)
    requires Servable(m, env) && Indexed(cands, |m.sells|) && cands != [] && m.buy.Remaining() >= MIN_TRADE_AMOUNT
    ensures Drain(m, cands, env) == Drain(FillOne(m, cands[0], env), cands[1..], env)
  {
  }

  ghost predicate FirstUnstuck(m: Market, cands: seq<Candidate>, k: nat, env: Env)
    requires Indexed(cands, |m.sells|)
  {
    k < |cands| && AllStuck(m, cands[..k], env) && !Stuck(m, cands[k], env)
  }

  lemma {:induction false} FindUnstuck(m: Market, cands: seq<Candidate>, env: Env) returns (k: nat)
    requires Indexed(cands, |m.sells|) && !AllStuck(m, cands, env)
    ensures FirstUnstuck(m, cands, k, env)
    decreases |cands|
  {
    var n := |cands| - 1;
    if AllStuck(m, cands[..n], env) {
      k := n;
      if Stuck(m, cands[n], env) {
        forall i | 0 <= i < |cands| ensures Stuck(m, cands[i], env) {
          assert i < n ==> Stuck(m, cands[..n][i], env);
        }
      }
    } else {
      k := FindUnstuck(m, cands[..n], env);
      assert cands[..n][..k] == cands[..k];
    }
  }

  /** The optimistic pass equals the single pass over every candidate if and only if it left
      nothing to revisit. */
  lemma OptimisticExactly(m: Market, env: Env)
    requires Servable(m, env) && UniqueIds(m.sells)
    ensures Optimistic(m, env) == FullDrain(m, env) <==> NothingToRevisit(m, env)
  {
    hide Ranked, Offer, Drain, Supply, CoverFrom, Stuck, Live, AllStuck;
    var need := m.buy.Remaining();
    var all := AllCandidates(m.sells, m.buy, need, env);
    var n := CoverFrom(all, m.sells, need, 0);
    assert all == all[..n] + all[n..];
    DrainAppend(m, all[..n], all[n..], env);
    var first := Drain(m, all[..n], env);
    DrainKeepsTerms(m, all[..n], env);
    if first.buy.Remaining() < MIN_TRADE_AMOUNT || Supply(all[..n], m.sells) < need {
      DrainNothing(first, all[n..], env);
    } else {
      DrainLeavesOrSpends(m, all[..n], env);
      RebuildIsLive(m.sells, first.sells, |m.sells|, m.buy, first.buy, need, env);
      DrainOfLive(first, all, first.sells, env);
      if AllStuck(first, all[..n], env) {
        DrainAppend(first, all[..n], all[n..], env);
        DrainOfStuck(first, all[..n], env);
      } else {
        var k := FindUnstuck(first, all[..n], env);
        assert all[..n][..k] == all[..k] && all[..n][k] == all[k];
        UnstuckFills(first, all, k, env);
        CandidatesDistinct(m.sells, m.buy, need, env);
        DrainLeavesOthers(first, all[n..], env, all[k].sellIdx);
      }
    }
  }

  // ---------- A grid ----------

  /** No link whose capacity is finite but holds two minimum trades shares a buyer's zone with
      another link that carries anything at all. */
  ghost predicate CapsSeparate(t: Topology) {
    forall z1, z2, to, amount ::
      z1 != z2 && t.canAccommodate(z1, to, 2 * MIN_TRADE_AMOUNT) && t.canAccommodate(z2, to, MIN_TRADE_AMOUNT)
      ==> t.canAccommodate(z1, to, amount)
  }

  /** Every cycle of the engine on this grid is the naive matcher's. */
  ghost predicate AlwaysNaive(t: Topology) {
    forall buys: seq<FastOrder>, sells: seq<FastOrder>, env: Env :: env.topology == t && Runnable(RankBuys(buys), env) && UniqueIds(sells) ==>
      CycleOutcome(buys, sells, env, false) == CycleOutcome(buys, sells, env, true)
  }

  /** Each link carries nothing or at least one minimum trade, as every cycle leaves it. */
  ghost predicate LotFlows(flow: Flow) {
    forall link :: FlowOn(flow, link) == 0 || FlowOn(flow, link) >= MIN_TRADE_AMOUNT
  }

  lemma FillKeepsLots(m: Market, c: Candidate, env: Env)
    requires Servable(m, env) && c.sellIdx < |m.sells| && LotFlows(m.flow) && m.buy.Remaining() >= MIN_TRADE_AMOUNT
    ensures LotFlows(FillOne(m, c, env).flow)
  {
    var r := FillOne(m, c, env);
    forall link ensures FlowOn(r.flow, link) == 0 || FlowOn(r.flow, link) >= MIN_TRADE_AMOUNT {
      assert FlowOn(m.flow, link) == 0 || FlowOn(m.flow, link) >= MIN_TRADE_AMOUNT;
    }
  }

  lemma {:induction false} DrainKeepsLots(m: Market, cands: seq<Candidate>, env: Env)
    requires Servable(m, env) && Indexed(cands, |m.sells|) && LotFlows(m.flow)
    ensures LotFlows(Drain(m, cands, env).flow)
    decreases |cands|
  {
    if cands != [] && m.buy.Remaining() >= MIN_TRADE_AMOUNT {
      FillKeepsLots(m, cands[0], env);
      hide LotFlows;
      DrainKeepsLots(FillOne(m, cands[0], env), cands[1..], env);
    }
  }

  /** Stuck in a way no fill undoes: spent, or on a link that carries a minimum trade and does
      not hold two. */
  ghost predicate StuckForGood(m: Market, c: Candidate, env: Env)
    requires c.sellIdx < |m.sells|
  {
    var sell := m.sells[c.sellIdx];
    || sell.Remaining() < MIN_TRADE_AMOUNT
    || (!env.topology.canAccommodate(sell.zone, m.buy.zone, 2 * MIN_TRADE_AMOUNT)
        && FlowOn(m.flow, Link(sell.zone, m.buy.zone)) >= MIN_TRADE_AMOUNT)
  }

  lemma StuckForGoodIsStuck(m: Market, c: Candidate, env: Env)
    requires c.sellIdx < |m.sells| && DownwardClosed(env.topology) && m.buy.Remaining() >= MIN_TRADE_AMOUNT
    requires StuckForGood(m, c, env)
    ensures Stuck(m, c, env)
  {
  }

  lemma StuckForGoodStays(m: Market, c: Candidate, d: Candidate, env: Env)
    requires Servable(m, env) && c.sellIdx < |m.sells| && d.sellIdx < |m.sells| && m.buy.Remaining() >= MIN_TRADE_AMOUNT
    requires StuckForGood(m, c, env)
    ensures StuckForGood(FillOne(m, d, env), c, env)
  {
  }

  /** The link of `c` carries anything or does not hold two minimum trades, and admits what the
      candidate was priced at. */
  ghost predicate OnSeparateCap(m: Market, c: Candidate, need: int, env: Env)
    requires c.sellIdx < |m.sells|
  {
    var sell := m.sells[c.sellIdx];
    && env.topology.canAccommodate(sell.zone, m.buy.zone, Min(need, sell.Remaining()))
    && (env.topology.canAccommodate(sell.zone, m.buy.zone, 2 * MIN_TRADE_AMOUNT)
        ==> forall amount :: env.topology.canAccommodate(sell.zone, m.buy.zone, amount))
  }

  lemma FillSticksForGood(m: Market, c: Candidate, need: int, env: Env)
    requires Servable(m, env) && c.sellIdx < |m.sells| && DownwardClosed(env.topology) && LotFlows(m.flow)
    requires OnSeparateCap(m, c, need, env) && MIN_TRADE_AMOUNT <= m.buy.Remaining() <= need
    requires FillOne(m, c, env).buy.Remaining() >= MIN_TRADE_AMOUNT
    ensures StuckForGood(FillOne(m, c, env), c, env)
  {
    var sell := m.sells[c.sellIdx];
    assert FlowOn(m.flow, Link(sell.zone, m.buy.zone)) == 0 || FlowOn(m.flow, Link(sell.zone, m.buy.zone)) >= MIN_TRADE_AMOUNT;
  }

  lemma SeparateCapStays(m: Market, c: Candidate, d: Candidate, need: int, env: Env)
    requires Servable(m, env) && c.sellIdx < |m.sells| && d.sellIdx < |m.sells| && m.buy.Remaining() >= MIN_TRADE_AMOUNT
    requires DownwardClosed(env.topology) && OnSeparateCap(m, c, need, env)
    ensures OnSeparateCap(FillOne(m, d, env), c, need, env)
  {
  }

  ghost predicate AllForGood(m: Market, cands: seq<Candidate>, env: Env)
    requires Indexed(cands, |m.sells|)
  {
    forall k :: 0 <= k < |cands| ==> StuckForGood(m, cands[k], env)
  }

  ghost predicate AllSeparate(m: Market, cands: seq<Candidate>, need: int, env: Env)
    requires Indexed(cands, |m.sells|)
  {
    forall k :: 0 <= k < |cands| ==> OnSeparateCap(m, cands[k], need, env)
  }

  /** A drain over separate caps that leaves the buy short leaves every candidate stuck for
      good. */
  lemma {:induction false} DrainSticksForGood(m: Market, seen: seq<Candidate>, cands: seq<Candidate>, need: int, env: Env)
    requires Servable(m, env) && DownwardClosed(env.topology) && LotFlows(m.flow)
    requires Indexed(seen, |m.sells|) && Indexed(cands, |m.sells|) && m.buy.Remaining() <= need
    requires AllForGood(m, seen, env) && AllSeparate(m, cands, need, env)
    requires Drain(m, cands, env).buy.Remaining() >= MIN_TRADE_AMOUNT
    ensures |Drain(m, cands, env).sells| == |m.sells|
    ensures AllForGood(Drain(m, cands, env), seen + cands, env)
    decreases |cands|
  {
    hide StuckForGood, OnSeparateCap, DownwardClosed, LotFlows;
    DrainKeepsTerms(m, cands, env);
    DrainOnlyFills(m, cands, env);
    if cands == [] {
      assert seen + cands == seen;
    } else {
      var next, tail := FillOne(m, cands[0], env), cands[1..];
      DrainOnlyFills(next, tail, env);
      forall k | 0 <= k < |seen| ensures StuckForGood(next, seen[k], env) {
        StuckForGoodStays(m, seen[k], cands[0], env);
      }
      FillSticksForGood(m, cands[0], need, env);
      forall k | 0 <= k < |tail| ensures OnSeparateCap(next, tail[k], need, env) {
        assert tail[k] == cands[k + 1];
        SeparateCapStays(m, cands[k + 1], cands[0], need, env);
      }
      FillKeepsLots(m, cands[0], env);
      FillShrinksNeed(m, cands[0], env);
      DrainSticksForGood(next, seen + [cands[0]], tail, need, env);
      assert seen + [cands[0]] + tail == seen + cands;
    }
  }

  lemma FillShrinksNeed(m: Market, c: Candidate, env: Env)
    requires Servable(m, env) && c.sellIdx < |m.sells| && m.buy.Remaining() >= MIN_TRADE_AMOUNT
    ensures FillOne(m, c, env).buy.Remaining() <= m.buy.Remaining()
  {
  }

  lemma CandidatesSeparate(m: Market, n: nat, env: Env)
    requires Servable(m, env) && CapsSeparate(env.topology)
    requires n <= |AllCandidates(m.sells, m.buy, m.buy.Remaining(), env)|
    ensures var cands := AllCandidates(m.sells, m.buy, m.buy.Remaining(), env)[..n];
      Indexed(cands, |m.sells|)
      && (AllSeparate(m, cands, m.buy.Remaining(), env) || exists z :: FromZone(cands, m.sells, z))
  {
    hide Ranked, PricedCandidate;
    var need := m.buy.Remaining();
    var cands := AllCandidates(m.sells, m.buy, need, env)[..n];
    forall k | 0 <= k < |cands|
      ensures var sell := m.sells[cands[k].sellIdx];
        && env.topology.canAccommodate(sell.zone, m.buy.zone, MIN_TRADE_AMOUNT)
        && env.topology.canAccommodate(sell.zone, m.buy.zone, Min(need, sell.Remaining()))
    {
      assert Offer(m.sells, cands[k].sellIdx, m.buy, need, env) == Some(cands[k]);
      PricedIsAdmitted(m.sells, cands[k].sellIdx, m.buy, need, env);
    }
    if !AllSeparate(m, cands, need, env) {
      var k :| 0 <= k < |cands| && !OnSeparateCap(m, cands[k], need, env);
      var z := m.sells[cands[k].sellIdx].zone;
      forall j | 0 <= j < |cands| ensures m.sells[cands[j].sellIdx].zone == z {
        assert env.topology.canAccommodate(m.sells[cands[j].sellIdx].zone, m.buy.zone, MIN_TRADE_AMOUNT);
      }
      assert FromZone(cands, m.sells, z);
    }
  }

  lemma PricedIsAdmitted(sells: seq<FastOrder>, i: nat, buy: FastOrder, need: int, env: Env)
    requires i < |sells| && Offer(sells, i, buy, need, env).Some?
    ensures env.topology.canAccommodate(sells[i].zone, buy.zone, MIN_TRADE_AMOUNT)
    ensures env.topology.canAccommodate(sells[i].zone, buy.zone, Min(need, sells[i].Remaining()))
  {
    hide LandedCost;
  }

  lemma OptimisticOnSeparateCaps(m: Market, env: Env)
    requires Servable(m, env) && UniqueIds(m.sells) && DownwardClosed(env.topology) && CapsSeparate(env.topology)
    requires LotFlows(m.flow)
    ensures Optimistic(m, env) == FullDrain(m, env)
  {
    hide Ranked, Drain, Supply, CoverFrom, Optimistic, FullDrain, Stuck, StuckForGood, OnSeparateCap, DownwardClosed, CapsSeparate, LotFlows, UniqueIds;
    OptimisticExactly(m, env);
    var need := m.buy.Remaining();
    var all := AllCandidates(m.sells, m.buy, need, env);
    var n := CoverFrom(all, m.sells, need, 0);
    var first := Drain(m, all[..n], env);
    DrainKeepsTerms(m, all[..n], env);
    if first.buy.Remaining() >= MIN_TRADE_AMOUNT {
      CandidatesSeparate(m, n, env);
      if AllSeparate(m, all[..n], need, env) {
        DrainSticksForGood(m, [], all[..n], need, env);
        assert [] + all[..n] == all[..n];
        forall k | 0 <= k < n ensures Stuck(first, all[..n][k], env) {
          StuckForGoodIsStuck(first, all[..n][k], env);
        }
      } else {
        var z :| FromZone(all[..n], m.sells, z);
        DrainSticks(m, [], all[..n], z, env);
      }
    }
  }

  lemma ServeKeepsLots(m: Market, env: Env)
    requires Servable(m, env) && LotFlows(m.flow) && UniqueIds(m.sells)
    ensures LotFlows(ServeNaively(m, env).flow) && UniqueIds(ServeNaively(m, env).sells)
  {
    hide Ranked, Drain, LotFlows;
    var all := AllCandidates(m.sells, m.buy, m.buy.Remaining(), env);
    DrainKeepsLots(m, all, env);
    DrainOnlyFillsSells(m, all, env);
  }

  lemma {:induction false} RunOnSeparateCaps(c: Cycle, i: nat, env: Env)
    requires i <= |c.buys| && Runnable(c.buys, env) && UniqueIds(c.sells) && LotFlows(c.flow)
    requires DownwardClosed(env.topology) && CapsSeparate(env.topology)
    ensures Run(c, i, env, false) == Run(c, i, env, true)
    decreases |c.buys| - i
  {
    hide DownwardClosed, CapsSeparate, LotFlows, UniqueIds, Optimistic, AllCandidates, Drain, AllOrNothing;
    if i < |c.buys| {
      var m := c.MarketOf(i);
      ServeKeepsTerms(m, env, true);
      OptimisticOnSeparateCaps(m, env);
      ServeKeepsLots(m, env);
      RunOnSeparateCaps(c.After(i, Serve(m, env, true)), i + 1, env);
    }
  }

  lemma SeparateCapsAreNaive(t: Topology)
    requires DownwardClosed(t) && CapsSeparate(t)
    ensures AlwaysNaive(t)
  {
    hide DownwardClosed, CapsSeparate, Run, UniqueIds, RankBuys, GuardMultiplier;
    forall buys: seq<FastOrder>, sells: seq<FastOrder>, env: Env
      | env.topology == t && Runnable(RankBuys(buys), env) && UniqueIds(sells)
      ensures CycleOutcome(buys, sells, env, false) == CycleOutcome(buys, sells, env, true)
    {
      RunOnSeparateCaps(Start(buys, sells), 0, env.(multiplier := GuardMultiplier(env.multiplier)));
    }
  }

  // ---------- Where caps are not separate ----------

  function Sample(id: Uuid, price: I64, energy: int, zone: Zone): FastOrder {
    FastOrder(id, id, price, energy, 0, zone, 0, None, Gtc, 0)
  }

  /** The buy of energy `limit` plus one minimum trade. */
  function ShortBuy(limit: int, to: Zone): FastOrder { Sample(4, I64_MAX, limit + MIN_TRADE_AMOUNT, to) }

  /** A minimum trade and one quantum less than `limit` on the limited link, and a dearer
      minimum trade from another zone. */
  function ShortSells(limit: int, z1: Zone, z2: Zone): seq<FastOrder> {
    [Sample(1, 1, MIN_TRADE_AMOUNT, z1), Sample(2, 1, limit - 1, z1), Sample(3, I64_MAX, MIN_TRADE_AMOUNT, z2)]
  }

  function ShortEnv(t: Topology): Env { Env(t, FACTOR, 0, [OrderMetadata(0, None, None)]) }

  /** Two links into `to`: one admits exactly `limit`, at least two minimum trades; the other
      admits one. */
  ghost predicate LimitedLink(t: Topology, z1: Zone, z2: Zone, to: Zone, limit: int) {
    && DownwardClosed(t) && z1 != z2 && limit >= 2 * MIN_TRADE_AMOUNT
    && t.canAccommodate(z1, to, limit) && !t.canAccommodate(z1, to, limit + 1) && t.canAccommodate(z2, to, MIN_TRADE_AMOUNT)
  }

  /** How the sell at `i` is priced. */
  function ShortCandidate(t: Topology, z1: Zone, z2: Zone, to: Zone, limit: int, i: nat): (c: Candidate)
    requires i < 3
    ensures c.sellIdx == i
  {
    var sell := ShortSells(limit, z1, z2)[i];
    var fees := FeesBetween(t, sell.zone, to);
    Candidate(i, LandedCost(sell.price, fees, FACTOR), Max(fees.wheeling, 0), fees.loss, LossCost(sell.price, fees.loss),
              sell.price, 0, sell.id)
  }

  lemma ShortOffer(t: Topology, z1: Zone, z2: Zone, to: Zone, limit: int, i: nat)
    requires LimitedLink(t, z1, z2, to, limit) && i < 3
    ensures Offer(ShortSells(limit, z1, z2), i, ShortBuy(limit, to), limit + MIN_TRADE_AMOUNT, ShortEnv(t))
         == Some(ShortCandidate(t, z1, z2, to, limit, i))
  {
    hide LandedCost;
    var sell := ShortSells(limit, z1, z2)[i];
    assert t.canAccommodate(sell.zone, to, MIN_TRADE_AMOUNT);
    assert t.canAccommodate(sell.zone, to, Min(limit + MIN_TRADE_AMOUNT, sell.Remaining()));
  }

  /** The cheap sells land alike, the dear one at the maximum, so the ids decide. */
  lemma ShortOrder(t: Topology, z1: Zone, z2: Zone, to: Zone, limit: int)
    ensures var c := (i: nat) requires i < 3 => ShortCandidate(t, z1, z2, to, limit, i);
      CandidateKey(c(0)).Less(CandidateKey(c(1))) && CandidateKey(c(0)).Less(CandidateKey(c(2)))
      && CandidateKey(c(1)).Less(CandidateKey(c(2)))
  {
    assert forall fees: ZoneFees :: LandedCost(I64_MAX, fees, FACTOR) == I64_MAX;
  }

  lemma ShortRanked(t: Topology, z1: Zone, z2: Zone, to: Zone, limit: int)
    requires LimitedLink(t, z1, z2, to, limit)
    ensures AllCandidates(ShortSells(limit, z1, z2), ShortBuy(limit, to), limit + MIN_TRADE_AMOUNT, ShortEnv(t))
         == [ShortCandidate(t, z1, z2, to, limit, 0), ShortCandidate(t, z1, z2, to, limit, 1),
             ShortCandidate(t, z1, z2, to, limit, 2)]
  {
    hide Offer, ShortCandidate, CandidateKey, LimitedLink, Insert;
    var sells, buy, need, env := ShortSells(limit, z1, z2), ShortBuy(limit, to), limit + MIN_TRADE_AMOUNT, ShortEnv(t);
    var c0 := ShortCandidate(t, z1, z2, to, limit, 0);
    var c1 := ShortCandidate(t, z1, z2, to, limit, 1);
    var c2 := ShortCandidate(t, z1, z2, to, limit, 2);
    ShortOffer(t, z1, z2, to, limit, 0);
    ShortOffer(t, z1, z2, to, limit, 1);
    ShortOffer(t, z1, z2, to, limit, 2);
    ShortOrder(t, z1, z2, to, limit);
    KeysAsymmetric(CandidateKey(c0), CandidateKey(c1));
    KeysAsymmetric(CandidateKey(c0), CandidateKey(c2));
    KeysAsymmetric(CandidateKey(c1), CandidateKey(c2));
    InsertAt([], c0, CandidateKey, 0);
    InsertAt([c0], c1, CandidateKey, 1);
    InsertAt([c0, c1], c2, CandidateKey, 2);
    assert Ranked(sells, 1, buy, need, env) == [c0];
    assert Ranked(sells, 2, buy, need, env) == [c0, c1];
  }

  lemma KeysAsymmetric(k: Key, l: Key)
    requires k.Less(l)
    ensures !l.Less(k)
  {
  }

  function ShortMarket(z1: Zone, z2: Zone, to: Zone, limit: int): Market {
    Market(ShortBuy(limit, to), ShortSells(limit, z1, z2), map[], [])
  }

  lemma FillTakes(m: Market, c: Candidate, env: Env, take: int)
    requires Servable(m, env) && c.sellIdx < |m.sells| && m.sells[c.sellIdx].Remaining() >= MIN_TRADE_AMOUNT
    requires take == Min(m.buy.Remaining(), m.sells[c.sellIdx].Remaining())
    requires var link := Link(m.sells[c.sellIdx].zone, m.buy.zone);
      env.topology.canAccommodate(link.from, link.to, FlowOn(m.flow, link) + take)
    ensures var r, link := FillOne(m, c, env), Link(m.sells[c.sellIdx].zone, m.buy.zone);
      && r.buy == m.buy.Fill(take) && r.sells == m.sells[c.sellIdx := m.sells[c.sellIdx].Fill(take)]
      && r.flow == m.flow[link := FlowOn(m.flow, link) + take]
  {
  }

  /** The buy's need, and the flow on both links. */
  ghost predicate ShortOf(m: Market, z1: Zone, z2: Zone, to: Zone, need: int, flow1: int, flow2: int) {
    && m.buy.Remaining() == need && m.buy.zone == to && m.buy.metadataIndex == 0 && |m.sells| == 3
    && FlowOn(m.flow, Link(z1, to)) == flow1 && FlowOn(m.flow, Link(z2, to)) == flow2
  }

  lemma ShortLimits(t: Topology, z1: Zone, z2: Zone, to: Zone, limit: int)
    requires LimitedLink(t, z1, z2, to, limit)
    ensures t.canAccommodate(z1, to, MIN_TRADE_AMOUNT) && t.canAccommodate(z2, to, MIN_TRADE_AMOUNT)
    ensures t.canAccommodate(z1, to, limit) && !t.canAccommodate(z1, to, MIN_TRADE_AMOUNT + limit - 1)
    ensures z1 != z2 && limit >= 2 * MIN_TRADE_AMOUNT
  {
  }

  lemma FlowAfter(flow: Flow, link: Link, total: int, other: Link)
    ensures FlowOn(flow[link := total], other) == if other == link then total else FlowOn(flow, other)
  {
  }

  lemma ShortFirst(t: Topology, z1: Zone, z2: Zone, to: Zone, limit: int)
    requires LimitedLink(t, z1, z2, to, limit)
    ensures var m := FillOne(ShortMarket(z1, z2, to, limit), ShortCandidate(t, z1, z2, to, limit, 0), ShortEnv(t));
      && ShortOf(m, z1, z2, to, limit, MIN_TRADE_AMOUNT, 0)
      && m.sells[1] == ShortSells(limit, z1, z2)[1] && m.sells[2] == ShortSells(limit, z1, z2)[2]
  {
    ShortLimits(t, z1, z2, to, limit);
    var m, env := ShortMarket(z1, z2, to, limit), ShortEnv(t);
    hide FillOne, LimitedLink, ShortCandidate;
    FlowAfter(map[], Link(z1, to), MIN_TRADE_AMOUNT, Link(z1, to));
    FlowAfter(map[], Link(z1, to), MIN_TRADE_AMOUNT, Link(z2, to));
    assert FlowOn(map[], Link(z1, to)) == 0 && FlowOn(map[], Link(z2, to)) == 0;
    FillTakes(m, ShortCandidate(t, z1, z2, to, limit, 0), env, MIN_TRADE_AMOUNT);
  }

  lemma ShortSecond(t: Topology, z1: Zone, z2: Zone, to: Zone, limit: int, m: Market)
    requires LimitedLink(t, z1, z2, to, limit) && ShortOf(m, z1, z2, to, limit, MIN_TRADE_AMOUNT, 0)
    requires m.sells[1] == ShortSells(limit, z1, z2)[1]
    ensures FillOne(m, ShortCandidate(t, z1, z2, to, limit, 1), ShortEnv(t)) == m
  {
    ShortLimits(t, z1, z2, to, limit);
    hide LimitedLink, ShortCandidate;
  }

  lemma ShortThird(t: Topology, z1: Zone, z2: Zone, to: Zone, limit: int, m: Market)
    requires LimitedLink(t, z1, z2, to, limit) && Servable(m, ShortEnv(t)) && |m.sells| == 3
    requires ShortOf(m, z1, z2, to, limit, MIN_TRADE_AMOUNT, 0)
    requires m.sells[1] == ShortSells(limit, z1, z2)[1] && m.sells[2] == ShortSells(limit, z1, z2)[2]
    ensures var r := FillOne(m, ShortCandidate(t, z1, z2, to, limit, 2), ShortEnv(t));
      && ShortOf(r, z1, z2, to, limit - MIN_TRADE_AMOUNT, MIN_TRADE_AMOUNT, MIN_TRADE_AMOUNT)
      && r.sells[1] == ShortSells(limit, z1, z2)[1]
  {
    ShortLimits(t, z1, z2, to, limit);
    hide LimitedLink, ShortCandidate, ShortOf, FillOne;
    FillDear(m, ShortCandidate(t, z1, z2, to, limit, 2), ShortEnv(t), z1, z2, to, limit, MIN_TRADE_AMOUNT);
  }

  /** Filling the third sell, of one lot, on the free second link. */
  lemma FillDear(m: Market, c: Candidate, env: Env, z1: Zone, z2: Zone, to: Zone, need: int, lot: int)
    requires Servable(m, env) && c.sellIdx == 2 && ShortOf(m, z1, z2, to, need, lot, 0) && z1 != z2
    requires m.sells[2].Remaining() == lot && m.sells[2].zone == z2 && MIN_TRADE_AMOUNT <= lot <= need
    requires env.topology.canAccommodate(z2, to, lot)
    ensures ShortOf(FillOne(m, c, env), z1, z2, to, need - lot, lot, lot) && FillOne(m, c, env).sells[1] == m.sells[1]
  {
    hide FillOne, FlowOn;
    FlowAfter(m.flow, Link(z2, to), lot, Link(z1, to));
    FlowAfter(m.flow, Link(z2, to), lot, Link(z2, to));
    FillTakes(m, c, env, lot);
  }

  lemma ShortUnstuck(t: Topology, z1: Zone, z2: Zone, to: Zone, limit: int, m: Market)
    requires LimitedLink(t, z1, z2, to, limit)
    requires ShortOf(m, z1, z2, to, limit - MIN_TRADE_AMOUNT, MIN_TRADE_AMOUNT, MIN_TRADE_AMOUNT)
    requires m.sells[1] == ShortSells(limit, z1, z2)[1]
    ensures !Stuck(m, ShortCandidate(t, z1, z2, to, limit, 1), ShortEnv(t))
  {
    ShortLimits(t, z1, z2, to, limit);
    hide LimitedLink, ShortCandidate;
  }

  /** The first pass takes the first sell, is refused the second, takes the third, and leaves a
      need that the limited link would now admit. */
  lemma ShortPass(t: Topology, z1: Zone, z2: Zone, to: Zone, limit: int)
    requires LimitedLink(t, z1, z2, to, limit)
    ensures var m := ShortMarket(z1, z2, to, limit);
      var cands := [ShortCandidate(t, z1, z2, to, limit, 0), ShortCandidate(t, z1, z2, to, limit, 1),
                    ShortCandidate(t, z1, z2, to, limit, 2)];
      && |Drain(m, cands, ShortEnv(t)).sells| == 3
      && Drain(m, cands, ShortEnv(t)).buy.Remaining() >= MIN_TRADE_AMOUNT
      && !Stuck(Drain(m, cands, ShortEnv(t)), cands[1], ShortEnv(t))
  {
    hide Drain, FillOne, Stuck, ShortCandidate, LimitedLink;
    ShortLimits(t, z1, z2, to, limit);
    var m, env := ShortMarket(z1, z2, to, limit), ShortEnv(t);
    var c0 := ShortCandidate(t, z1, z2, to, limit, 0);
    var c1 := ShortCandidate(t, z1, z2, to, limit, 1);
    var c2 := ShortCandidate(t, z1, z2, to, limit, 2);
    var m1 := FillOne(m, c0, env);
    ShortFirst(t, z1, z2, to, limit);
    ShortSecond(t, z1, z2, to, limit, m1);
    var m2 := FillOne(m1, c2, env);
    ShortThird(t, z1, z2, to, limit, m1);
    ShortUnstuck(t, z1, z2, to, limit, m2);
    DrainFrom(m, [c0, c1, c2], env);
    assert [c0, c1, c2][1..] == [c1, c2] && [c1, c2][1..] == [c2] && [c2][1..] == [];
    DrainFrom(m1, [c1, c2], env);
    DrainFrom(m1, [c2], env);
    DrainNothing(m2, [], env);
  }

  lemma ShortCover(t: Topology, z1: Zone, z2: Zone, to: Zone, limit: int)
    requires LimitedLink(t, z1, z2, to, limit)
    ensures var cands := [ShortCandidate(t, z1, z2, to, limit, 0), ShortCandidate(t, z1, z2, to, limit, 1),
                          ShortCandidate(t, z1, z2, to, limit, 2)];
      && Supply(cands, ShortSells(limit, z1, z2)) >= limit + MIN_TRADE_AMOUNT
      && CoverFrom(cands, ShortSells(limit, z1, z2), limit + MIN_TRADE_AMOUNT, 0) == 3
  {
    hide Supply, CoverFrom;
    var sells := ShortSells(limit, z1, z2);
    var c0 := ShortCandidate(t, z1, z2, to, limit, 0);
    var c1 := ShortCandidate(t, z1, z2, to, limit, 1);
    var c2 := ShortCandidate(t, z1, z2, to, limit, 2);
    var cands := [c0, c1, c2];
    SupplyNil(sells);
    SupplyExtend(cands, sells, 0);
    SupplyExtend(cands, sells, 1);
    SupplyExtend(cands, sells, 2);
    assert cands[..0] == [] && cands[..3] == cands;
    CoverIs(cands, sells, limit + MIN_TRADE_AMOUNT, 3);
  }

  lemma SupplyNil(sells: seq<FastOrder>)
    ensures Supply([], sells) == 0
  {
  }

  /** On every grid with a limited link beside another link, a cycle of three sells and one buy
      is not the naive matcher's: it starts from an empty ledger, and the single rebuild
      revisits a sell the naive pass refused for good. */
  lemma RebuildDiffersAcrossZones(t: Topology, z1: Zone, z2: Zone, to: Zone, limit: int)
    requires LimitedLink(t, z1, z2, to, limit)
    ensures var buys, sells, env := [ShortBuy(limit, to)], ShortSells(limit, z1, z2), ShortEnv(t);
      && Runnable(RankBuys(buys), env) && UniqueIds(sells)
      && CycleOutcome(buys, sells, env, false) != CycleOutcome(buys, sells, env, true)
  {
    hide Stuck, ShortCandidate, Drain, CoverFrom, Supply, AllCandidates, LimitedLink, Optimistic;
    var m, env := ShortMarket(z1, z2, to, limit), ShortEnv(t);
    ShortRanked(t, z1, z2, to, limit);
    ShortCover(t, z1, z2, to, limit);
    ShortPass(t, z1, z2, to, limit);
    assert m.buy.Remaining() == limit + MIN_TRADE_AMOUNT;
    var all := AllCandidates(m.sells, m.buy, m.buy.Remaining(), env);
    assert all[..3] == all && Indexed(all, |m.sells|);
    assert !Stuck(Drain(m, all, env), all[1], env);
    assert !NothingToRevisit(m, env);
    OptimisticExactly(m, env);
    ShortRests(z1, z2, to, limit, t);
    RunOneBuy(m.buy, m.sells, env, false);
    RunOneBuy(m.buy, m.sells, env, true);
    AfterTells(Cycle([m.buy], m.sells, map[], []), Serve(m, env, false), Serve(m, env, true));
  }

  lemma ShortRests(z1: Zone, z2: Zone, to: Zone, limit: int, t: Topology)
    requires LimitedLink(t, z1, z2, to, limit)
    ensures ShortBuy(limit, to).Resting(0)
  {
  }

  lemma AfterTells(c: Cycle, m: Market, m': Market)
    requires |c.buys| == 1 && m != m'
    ensures c.After(0, m) != c.After(0, m')
  {
    assert c.After(0, m).buys[0] == m.buy && c.After(0, m').buys[0] == m'.buy;
  }

  /** The last amount a link admits, when it admits some and not all. */
  lemma {:induction false} LastAdmitted(t: Topology, z: Zone, to: Zone, low: int, high: int) returns (limit: int)
    requires low <= high && t.canAccommodate(z, to, low) && !t.canAccommodate(z, to, high)
    ensures low <= limit && t.canAccommodate(z, to, limit) && !t.canAccommodate(z, to, limit + 1)
    decreases high - low
  {
    if t.canAccommodate(z, to, low + 1) {
      limit := LastAdmitted(t, z, to, low + 1, high);
    } else {
      limit := low;
    }
  }

  /** Exactly the grids with separate caps make every cycle the naive matcher's. */
  lemma CapsSeparateIsExact(t: Topology)
    requires DownwardClosed(t)
    ensures AlwaysNaive(t) <==> CapsSeparate(t)
  {
    hide AlwaysNaive, DownwardClosed, CycleOutcome;
    if CapsSeparate(t) {
      SeparateCapsAreNaive(t);
    } else {
      var z1, z2, to, amount :| z1 != z2 && t.canAccommodate(z1, to, 2 * MIN_TRADE_AMOUNT)
        && t.canAccommodate(z2, to, MIN_TRADE_AMOUNT) && !t.canAccommodate(z1, to, amount);
      LimitBelow(t, z1, to, amount);
      var limit := LastAdmitted(t, z1, to, 2 * MIN_TRADE_AMOUNT, amount);
      RebuildDiffersAcrossZones(t, z1, z2, to, limit);
      NotAlwaysNaive(t, [ShortBuy(limit, to)], ShortSells(limit, z1, z2), ShortEnv(t));
    }
  }

  lemma LimitBelow(t: Topology, z: Zone, to: Zone, amount: int)
    requires DownwardClosed(t) && t.canAccommodate(z, to, 2 * MIN_TRADE_AMOUNT) && !t.canAccommodate(z, to, amount)
    ensures 2 * MIN_TRADE_AMOUNT <= amount
  {
  }

  lemma NotAlwaysNaive(t: Topology, buys: seq<FastOrder>, sells: seq<FastOrder>, env: Env)
    requires env.topology == t && Runnable(RankBuys(buys), env) && UniqueIds(sells)
    requires CycleOutcome(buys, sells, env, false) != CycleOutcome(buys, sells, env, true)
    ensures !AlwaysNaive(t)
  {
    hide CycleOutcome;
  }
}
