/** What every matching cycle guarantees, for any book and any topology: fill-or-kill, per-order
    bookkeeping, flow safety, unique pairs and fair prices; and what no cycle leaves behind. */
module CdaSafety {
  import opened Options
  import opened FastPrices
  import opened Words
  import opened Orders
  import opened Ordering
  import opened Pricing
  import opened CdaSpec
  import opened CdaGather
  import opened CdaEngine
  import opened CdaRefinement

  // ---------- Bookkeeping of one step, as a transitive relation ----------

  lemma BoughtExtend(matches: seq<MatchResult>, x: MatchResult, id: Uuid)
    ensures BoughtBy(matches + [x], id) == BoughtBy(matches, id) + (if x.buyOrderId == id then x.matchAmount else 0)
  {
    assert (matches + [x])[..|matches|] == matches;
  }

  lemma SoldExtend(matches: seq<MatchResult>, x: MatchResult, id: Uuid)
    ensures SoldBy(matches + [x], id) == SoldBy(matches, id) + (if x.sellOrderId == id then x.matchAmount else 0)
  {
    assert (matches + [x])[..|matches|] == matches;
  }

  /** Energy of `matches` carried on a link. */
  function Carried(matches: seq<MatchResult>, link: Link): int {
    if matches == [] then 0
    else
      var last := matches[|matches| - 1];
      Carried(matches[..|matches| - 1], link)
      + (if Link(last.sellerZone, last.buyerZone) == link then last.matchAmount else 0)
  }

  lemma CarriedExtend(matches: seq<MatchResult>, x: MatchResult, link: Link)
    ensures Carried(matches + [x], link)
         == Carried(matches, link) + (if Link(x.sellerZone, x.buyerZone) == link then x.matchAmount else 0)
  {
    assert (matches + [x])[..|matches|] == matches;
  }

  /** Energy filled over a whole slice. */
  function TotalFilled(orders: seq<FastOrder>): int {
    if orders == [] then 0 else TotalFilled(orders[..|orders| - 1]) + orders[|orders| - 1].filledAmount
  }

  lemma {:induction false} TotalAfterUpdate(orders: seq<FastOrder>, i: nat, o: FastOrder)
    requires i < |orders|
    ensures TotalFilled(orders[i := o]) == TotalFilled(orders) - orders[i].filledAmount + o.filledAmount
    decreases |orders|
  {
    var n := |orders| - 1;
    if i < n {
      TotalAfterUpdate(orders[..n], i, o);
      assert orders[i := o][..n] == orders[..n][i := o];
    } else {
      assert orders[i := o][..n] == orders[..n];
    }
  }

  /** An order's fill advanced, and not past its size. */
  ghost predicate FilledWithin(before: FastOrder, after: FastOrder) {
    after.SameTerms(before) && before.filledAmount <= after.filledAmount
    && (after == before || after.Remaining() >= 0)
  }

  /** From `m` to `r` each order's fill advanced by exactly what the new matches say. */
  ghost predicate Booked(m: Market, r: Market) {
    && |r.sells| == |m.sells| && FilledWithin(m.buy, r.buy)
    && (forall i :: 0 <= i < |m.sells| ==> FilledWithin(m.sells[i], r.sells[i]))
    && (forall i :: 0 <= i < |m.sells| ==>
          r.sells[i].filledAmount - m.sells[i].filledAmount
          == SoldBy(r.matches, m.sells[i].id) - SoldBy(m.matches, m.sells[i].id))
    && r.buy.filledAmount - m.buy.filledAmount == BoughtBy(r.matches, m.buy.id) - BoughtBy(m.matches, m.buy.id)
    && (forall id: Uuid :: id != m.buy.id ==> BoughtBy(r.matches, id) == BoughtBy(m.matches, id))
    && r.buy.filledAmount - m.buy.filledAmount == Volume(r.matches) - Volume(m.matches)
    && TotalFilled(r.sells) - TotalFilled(m.sells) == Volume(r.matches) - Volume(m.matches)
  }

  lemma FillOneBooks(m: Market, c: Candidate, env: Env)
    requires Servable(m, env) && c.sellIdx < |m.sells| && UniqueIds(m.sells)
    requires m.buy.Remaining() >= MIN_TRADE_AMOUNT
    ensures Booked(m, FillOne(m, c, env))
  {
    var r := FillOne(m, c, env);
    if r != m {
      var x := r.matches[|m.matches|];
      VolumeExtend(m.matches, x);
      TotalAfterUpdate(m.sells, c.sellIdx, r.sells[c.sellIdx]);
      forall id: Uuid ensures BoughtBy(r.matches, id) == BoughtBy(m.matches, id) + (if m.buy.id == id then x.matchAmount else 0) {
        BoughtExtend(m.matches, x, id);
      }
      forall i | 0 <= i < |m.sells|
        ensures SoldBy(r.matches, m.sells[i].id)
             == SoldBy(m.matches, m.sells[i].id) + (if i == c.sellIdx then x.matchAmount else 0)
      {
        SoldExtend(m.matches, x, m.sells[i].id);
        assert i != c.sellIdx ==> m.sells[i].id != m.sells[c.sellIdx].id;
      }
    }
  }

  lemma BookedCompose(m: Market, mid: Market, r: Market)
    requires Booked(m, mid) && Booked(mid, r)
    ensures Booked(m, r)
  {
  }

  lemma {:induction false} DrainBooks(m: Market, cands: seq<Candidate>, env: Env)
    requires Servable(m, env) && Indexed(cands, |m.sells|) && UniqueIds(m.sells)
    ensures Booked(m, Drain(m, cands, env))
    decreases |cands|
  {
    hide FillOne;
    if cands != [] && m.buy.Remaining() >= MIN_TRADE_AMOUNT {
      var next := FillOne(m, cands[0], env);
      FillOneBooks(m, cands[0], env);
      DrainBooks(next, cands[1..], env);
      BookedCompose(m, next, Drain(next, cands[1..], env));
    }
  }

  lemma ServeBooks(m: Market, env: Env)
    requires Servable(m, env) && UniqueIds(m.sells)
    ensures Booked(m, ServeBuy(m, env))
  {
    hide Ranked, Drain, Booked;
    BookedSelf(m);
    var need := m.buy.Remaining();
    var all := AllCandidates(m.sells, m.buy, need, env);
    if m.buy.timeInForce.Fok? {
      DrainBooks(m, all, env);
    } else {
      var n := CoverFrom(all, m.sells, need, 0);
      var first := Drain(m, all[..n], env);
      DrainKeepsTerms(m, all[..n], env);
      DrainBooks(m, all[..n], env);
      var again := AllCandidates(first.sells, first.buy, need, env);
      DrainBooks(first, again, env);
      BookedCompose(m, first, Drain(first, again, env));
    }
  }

  lemma BookedSelf(m: Market)
    ensures Booked(m, m)
  {
  }

  // ---------- What every match and every link satisfies ----------

  /** A match of these two orders at the price the landed cost dictates. */
  ghost predicate IsMatchOf(x: MatchResult, buy: FastOrder, sell: FastOrder, env: Env) {
    var fees := FeesBetween(env.topology, sell.zone, buy.zone);
    && x.buyOrderId == buy.id && x.sellOrderId == sell.id && x.buyerId == buy.userId && x.sellerId == sell.userId
    && x.buyerId != x.sellerId
    && x.buyerZone == buy.zone && x.sellerZone == sell.zone
    && x.buyMetadataIndex == buy.metadataIndex && x.sellMetadataIndex == sell.metadataIndex
    && x.buyMetadataIndex < |env.buyMetadata| && x.epochId == env.buyMetadata[x.buyMetadataIndex].epochId
    && x.sellerPrice == sell.price && x.buyerPrice == buy.price
    && x.settlePrice == x.matchPrice == LandedCost(sell.price, fees, env.multiplier)
    && x.sellerPrice <= x.buyerPrice && x.settlePrice <= x.buyerPrice
    && x.matchAmount >= MIN_TRADE_AMOUNT
    && x.totalEnergyCost == x.matchAmount * x.settlePrice
    && x.wheelingCharge == x.matchAmount * Max(fees.wheeling, 0)
    && x.lossFactor == fees.loss && x.lossCost == x.matchAmount * LossCost(sell.price, fees.loss)
  }

  ghost predicate Sourced(x: MatchResult, buys: seq<FastOrder>, sells: seq<FastOrder>, env: Env) {
    exists i, j :: 0 <= i < |buys| && 0 <= j < |sells| && IsMatchOf(x, buys[i], sells[j], env)
  }

  /** A candidate that was priced for this buy. */
  ghost predicate Fits(c: Candidate, buy: FastOrder, sells: seq<FastOrder>, env: Env) {
    c.sellIdx < |sells|
    && var sell := sells[c.sellIdx];
       var fees := FeesBetween(env.topology, sell.zone, buy.zone);
    && buy.userId != sell.userId && sell.price <= buy.price && c.landed <= buy.price
    && c.landed == LandedCost(sell.price, fees, env.multiplier)
    && c.wheeling == Max(fees.wheeling, 0) && c.loss == fees.loss && c.lossCost == LossCost(sell.price, fees.loss)
  }

  lemma CandidatesFit(sells: seq<FastOrder>, buy: FastOrder, need: int, env: Env)
    ensures forall k :: 0 <= k < |AllCandidates(sells, buy, need, env)| ==>
      Fits(AllCandidates(sells, buy, need, env)[k], buy, sells, env)
  {
    var all := AllCandidates(sells, buy, need, env);
    forall k | 0 <= k < |all| ensures Fits(all[k], buy, sells, env) {
      assert Offer(sells, all[k].sellIdx, buy, need, env) == Some(all[k]);
    }
  }

  /** The link ledger is the sum of the matches, and the grid admits each link's total. */
  ghost predicate FlowOk(flow: Flow, matches: seq<MatchResult>, env: Env) {
    && (forall link :: FlowOn(flow, link) == Carried(matches, link))
    && (forall link :: link in flow ==> env.topology.canAccommodate(link.from, link.to, flow[link]))
  }

  /** Sells this buy has already matched are spent, unless the buy itself is. */
  ghost predicate Spent(m: Market) {
    forall k, j :: 0 <= k < |m.matches| && 0 <= j < |m.sells|
        && m.matches[k].buyOrderId == m.buy.id && m.matches[k].sellOrderId == m.sells[j].id
      ==> m.sells[j].Remaining() < MIN_TRADE_AMOUNT || m.buy.Remaining() < MIN_TRADE_AMOUNT
  }

  ghost predicate PairsUnique(matches: seq<MatchResult>) {
    forall a, b :: 0 <= a < b < |matches| ==>
      matches[a].buyOrderId != matches[b].buyOrderId || matches[a].sellOrderId != matches[b].sellOrderId
  }

  /** The matches made so far are sound against the cycle's orders. */
  ghost predicate Sound(m: Market, buys: seq<FastOrder>, sells: seq<FastOrder>, env: Env) {
    && SameOrders(sells, m.sells)
    && FlowOk(m.flow, m.matches, env)
    && (forall k :: 0 <= k < |m.matches| ==> Sourced(m.matches[k], buys, sells, env))
    && PairsUnique(m.matches) && Spent(m)
  }

  lemma FillOneSound(m: Market, c: Candidate, b: nat, buys: seq<FastOrder>, sells: seq<FastOrder>, env: Env)
    requires Servable(m, env) && UniqueIds(sells) && Sound(m, buys, sells, env)
    requires b < |buys| && m.buy.SameTerms(buys[b]) && Fits(c, m.buy, m.sells, env)
    requires m.buy.Remaining() >= MIN_TRADE_AMOUNT
    ensures Sound(FillOne(m, c, env), buys, sells, env)
  {
    hide LandedCost, LossCost;
    var r := FillOne(m, c, env);
    if r != m {
      var x := r.matches[|m.matches|];
      assert IsMatchOf(x, buys[b], sells[c.sellIdx], env);
      forall k | 0 <= k < |r.matches| ensures Sourced(r.matches[k], buys, sells, env) {
        assert k < |m.matches| ==> r.matches[k] == m.matches[k] && Sourced(m.matches[k], buys, sells, env);
      }
      FillOneFlow(m, c, env);
      FillOnePairs(m, c, env);
    }
  }

  lemma FillOneFlow(m: Market, c: Candidate, env: Env)
    requires Servable(m, env) && c.sellIdx < |m.sells| && FlowOk(m.flow, m.matches, env)
    ensures FlowOk(FillOne(m, c, env).flow, FillOne(m, c, env).matches, env)
  {
    var r := FillOne(m, c, env);
    if r != m {
      forall link ensures FlowOn(r.flow, link) == Carried(r.matches, link) {
        CarriedExtend(m.matches, r.matches[|m.matches|], link);
      }
    }
  }

  lemma FillOnePairs(m: Market, c: Candidate, env: Env)
    requires Servable(m, env) && c.sellIdx < |m.sells| && UniqueIds(m.sells)
    requires m.buy.Remaining() >= MIN_TRADE_AMOUNT && PairsUnique(m.matches) && Spent(m)
    ensures PairsUnique(FillOne(m, c, env).matches) && Spent(FillOne(m, c, env))
  {
    var r := FillOne(m, c, env);
    if r != m {
      forall k | 0 <= k < |m.matches|
        ensures m.matches[k].buyOrderId != m.buy.id || m.matches[k].sellOrderId != m.sells[c.sellIdx].id
      {
      }
      forall k, j | 0 <= k < |r.matches| && 0 <= j < |r.sells|
          && r.matches[k].buyOrderId == r.buy.id && r.matches[k].sellOrderId == r.sells[j].id
        ensures r.sells[j].Remaining() < MIN_TRADE_AMOUNT || r.buy.Remaining() < MIN_TRADE_AMOUNT
      {
        if k < |m.matches| {
          assert r.matches[k] == m.matches[k];
        }
      }
    }
  }

  lemma {:induction false} DrainSound(m: Market, cands: seq<Candidate>, b: nat, buys: seq<FastOrder>, sells: seq<FastOrder>, env: Env)
    requires Servable(m, env) && UniqueIds(sells) && Sound(m, buys, sells, env)
    requires b < |buys| && m.buy.SameTerms(buys[b])
    requires Indexed(cands, |m.sells|) && forall k :: 0 <= k < |cands| ==> Fits(cands[k], m.buy, m.sells, env)
    ensures Sound(Drain(m, cands, env), buys, sells, env)
    decreases |cands|
  {
    hide FillOne, Sound, LandedCost, LossCost;
    if cands != [] && m.buy.Remaining() >= MIN_TRADE_AMOUNT {
      var next := FillOne(m, cands[0], env);
      FillOneSound(m, cands[0], b, buys, sells, env);
      FillOneTerms(m, cands[0], env);
      forall k | 0 <= k < |cands[1..]| ensures Fits(cands[1..][k], next.buy, next.sells, env) {
        assert Fits(cands[k + 1], m.buy, m.sells, env);
      }
      DrainSound(next, cands[1..], b, buys, sells, env);
    }
  }

  lemma FillOneTerms(m: Market, c: Candidate, env: Env)
    requires Servable(m, env) && c.sellIdx < |m.sells|
    ensures KeepsTerms(m, FillOne(m, c, env))
  {
  }

  lemma ServeSound(m: Market, b: nat, buys: seq<FastOrder>, sells: seq<FastOrder>, env: Env)
    requires Servable(m, env) && UniqueIds(sells) && Sound(m, buys, sells, env)
    requires b < |buys| && m.buy.SameTerms(buys[b])
    ensures Sound(ServeBuy(m, env), buys, sells, env)
  {
    hide Ranked, Drain, Sound, Fits;
    var need := m.buy.Remaining();
    var all := AllCandidates(m.sells, m.buy, need, env);
    CandidatesFit(m.sells, m.buy, need, env);
    if m.buy.timeInForce.Fok? {
      DrainSound(m, all, b, buys, sells, env);
    } else {
      var n := CoverFrom(all, m.sells, need, 0);
      var first := Drain(m, all[..n], env);
      DrainKeepsTerms(m, all[..n], env);
      DrainSound(m, all[..n], b, buys, sells, env);
      CandidatesFit(first.sells, first.buy, need, env);
      DrainSound(first, AllCandidates(first.sells, first.buy, need, env), b, buys, sells, env);
    }
  }

  // ---------- Over the whole cycle ----------

  /** The cycle stands at buy `i`, having started from `c0`: buys before `i` are served, those
      from `i` on untouched, and everything so far adds up. */
  ghost predicate CycleOk(c0: Cycle, c: Cycle, i: nat, env: Env) {
    && |c.buys| == |c0.buys| && |c.sells| == |c0.sells|
    && (forall j :: 0 <= j < |c.buys| ==> FilledWithin(c0.buys[j], c.buys[j]))
    && (forall j :: 0 <= j < |c.sells| ==> FilledWithin(c0.sells[j], c.sells[j]))
    && (forall j :: 0 <= j < |c.buys| ==>
          c.buys[j].filledAmount - c0.buys[j].filledAmount == BoughtBy(c.matches, c.buys[j].id))
    && (forall j :: 0 <= j < |c.sells| ==>
          c.sells[j].filledAmount - c0.sells[j].filledAmount == SoldBy(c.matches, c.sells[j].id))
    && TotalFilled(c.buys) - TotalFilled(c0.buys) == Volume(c.matches)
    && TotalFilled(c.sells) - TotalFilled(c0.sells) == Volume(c.matches)
    && FlowOk(c.flow, c.matches, env) && PairsUnique(c.matches)
    && (forall k :: 0 <= k < |c.matches| ==> Sourced(c.matches[k], c0.buys, c0.sells, env))
    && (forall j :: i <= j < |c.buys| ==> c.buys[j] == c0.buys[j])
    && (forall k, j :: 0 <= k < |c.matches| && i <= j < |c.buys| ==> c.matches[k].buyOrderId != c.buys[j].id)
  }

  /** Matches of the one buy being served carry its id; older ones are kept. */
  ghost predicate OnlyOwnMatches(m: Market, r: Market) {
    m.matches <= r.matches && forall k :: |m.matches| <= k < |r.matches| ==> r.matches[k].buyOrderId == m.buy.id
  }

  lemma {:induction false} DrainOwnMatches(m: Market, cands: seq<Candidate>, env: Env)
    requires Servable(m, env) && Indexed(cands, |m.sells|)
    ensures OnlyOwnMatches(m, Drain(m, cands, env))
    decreases |cands|
  {
    if cands != [] && m.buy.Remaining() >= MIN_TRADE_AMOUNT {
      DrainOwnMatches(FillOne(m, cands[0], env), cands[1..], env);
    }
  }

  lemma ServeOwnMatches(m: Market, env: Env)
    requires Servable(m, env)
    ensures OnlyOwnMatches(m, ServeBuy(m, env))
  {
    hide Ranked, Drain;
    var need := m.buy.Remaining();
    var all := AllCandidates(m.sells, m.buy, need, env);
    DrainOwnMatches(m, all, env);
    var n := CoverFrom(all, m.sells, need, 0);
    DrainKeepsTerms(m, all[..n], env);
    DrainOwnMatches(m, all[..n], env);
    var first := Drain(m, all[..n], env);
    DrainOwnMatches(first, AllCandidates(first.sells, first.buy, need, env), env);
  }

  lemma StepOk(c0: Cycle, c: Cycle, i: nat, env: Env)
    requires i < |c.buys| && Runnable(c.buys, env) && CycleOk(c0, c, i, env)
    requires UniqueIds(c0.buys) && UniqueIds(c0.sells)
    ensures CycleOk(c0, c.After(i, ServeBuy(c.MarketOf(i), env)), i + 1, env)
  {
    hide ServeBuy, FlowOk, PairsUnique, Sourced;
    var m := c.MarketOf(i);
    var r := ServeBuy(m, env);
    assert Sound(m, c0.buys, c0.sells, env);
    ServeSound(m, i, c0.buys, c0.sells, env);
    ServeBooks(m, env);
    ServeOwnMatches(m, env);
    TotalAfterUpdate(c.buys, i, r.buy);
  }

  lemma {:induction false} RunOk(c0: Cycle, c: Cycle, i: nat, env: Env)
    requires i <= |c.buys| && Runnable(c.buys, env) && CycleOk(c0, c, i, env)
    requires UniqueIds(c0.buys) && UniqueIds(c0.sells)
    ensures CycleOk(c0, Run(c, i, env, false), |c0.buys|, env)
    decreases |c.buys| - i
  {
    hide ServeBuy, CycleOk;
    CycleLengths(c0, c, i, env);
    if i < |c.buys| {
      StepOk(c0, c, i, env);
      RunStep(c, i, env);
      RunOk(c0, c.After(i, ServeBuy(c.MarketOf(i), env)), i + 1, env);
    }
  }

  lemma CycleLengths(c0: Cycle, c: Cycle, i: nat, env: Env)
    requires CycleOk(c0, c, i, env)
    ensures |c.buys| == |c0.buys|
  {
  }

  /** The cycle's environment, with a usable multiplier. */
  function Guarded(env: Env): Env { env.(multiplier := GuardMultiplier(env.multiplier)) }

  lemma StartOk(buys: seq<FastOrder>, sells: seq<FastOrder>, env: Env)
    ensures CycleOk(Start(buys, sells), Start(buys, sells), 0, env)
  {
  }

  /** Conservation and flow safety of one cycle: each order advances by exactly its matches and
      never past its size, both sides advance by the total volume, every link's total flow is
      admitted, no pair repeats, and each match is one of the given orders' at its landed cost. */
  lemma CycleConserves(buys: seq<FastOrder>, sells: seq<FastOrder>, env: Env)
    requires UniqueIds(buys) && UniqueIds(sells) && Runnable(RankBuys(buys), env)
    ensures var c0, c := Start(buys, sells), CycleOutcome(buys, sells, env, false);
      && |c.buys| == |buys| && |c.sells| == |sells|
      && (forall j :: 0 <= j < |c.buys| ==> FilledWithin(c0.buys[j], c.buys[j]))
      && (forall j :: 0 <= j < |c.sells| ==> FilledWithin(sells[j], c.sells[j]))
      && (forall j :: 0 <= j < |c.buys| ==>
            c.buys[j].filledAmount - c0.buys[j].filledAmount == BoughtBy(c.matches, c.buys[j].id))
      && (forall j :: 0 <= j < |c.sells| ==>
            c.sells[j].filledAmount - sells[j].filledAmount == SoldBy(c.matches, c.sells[j].id))
      && TotalFilled(c.buys) - TotalFilled(c0.buys) == Volume(c.matches) == TotalFilled(c.sells) - TotalFilled(sells)
      && (forall link :: link in c.flow ==>
            c.flow[link] == Carried(c.matches, link) && env.topology.canAccommodate(link.from, link.to, c.flow[link]))
      && (forall link :: link !in c.flow ==> Carried(c.matches, link) == 0)
      && PairsUnique(c.matches)
      && (forall k :: 0 <= k < |c.matches| ==> Sourced(c.matches[k], c0.buys, sells, Guarded(env)))
  {
    var c0 := Start(buys, sells);
    RankBuysUnique(buys);
    StartOk(buys, sells, Guarded(env));
    RunOk(c0, c0, 0, Guarded(env));
    var c := CycleOutcome(buys, sells, env, false);
    FlowSafe(c.flow, c.matches, env);
  }

  lemma FlowSafe(flow: Flow, matches: seq<MatchResult>, env: Env)
    requires FlowOk(flow, matches, Guarded(env))
    ensures forall link :: link in flow ==>
      flow[link] == Carried(matches, link) && env.topology.canAccommodate(link.from, link.to, flow[link])
    ensures forall link :: link !in flow ==> Carried(matches, link) == 0
  {
    forall link
      ensures link in flow ==> flow[link] == Carried(matches, link)
      ensures link !in flow ==> Carried(matches, link) == 0
    {
      assert FlowOn(flow, link) == Carried(matches, link);
    }
  }

  lemma RankBuysUnique(buys: seq<FastOrder>)
    requires UniqueIds(buys)
    ensures UniqueIds(RankBuys(buys))
  {
    RankBuysSorted(buys);
    var r := RankBuys(buys);
    forall i, j | 0 <= i < j < |r| ensures r[i].id != r[j].id {
      assert BuyKey(r[i]).Less(BuyKey(r[j]));
      assert r[i] in buys && r[j] in buys;
    }
  }

  /** Priced at the grid's rates on the link from seller to buyer: settled at the landed cost of
      the ask, and charged wheeling and loss per unit of energy. */
  ghost predicate PricedOnLink(x: MatchResult, topology: Topology, multiplier: I64) {
    var wheeling, loss := topology.wheeling(x.sellerZone, x.buyerZone), topology.loss(x.sellerZone, x.buyerZone);
    && x.settlePrice == x.matchPrice == LandedCost(x.sellerPrice, ZoneFees(wheeling, loss), if multiplier > 0 then multiplier else FACTOR)
    && x.totalEnergyCost == x.matchAmount * x.settlePrice
    && x.wheelingCharge == x.matchAmount * (if wheeling > 0 then wheeling else 0)
    && x.lossFactor == loss && x.lossCost == x.matchAmount * LossCost(x.sellerPrice, loss)
  }

  /** Every match of a cycle is priced on its own link; a multiplier that is not positive counts
      as 1.0. */
  lemma MatchesArePriced(buys: seq<FastOrder>, sells: seq<FastOrder>, env: Env, x: MatchResult)
    requires UniqueIds(buys) && UniqueIds(sells) && Runnable(RankBuys(buys), env)
    requires x in CycleOutcome(buys, sells, env, false).matches
    ensures PricedOnLink(x, env.topology, env.multiplier)
  {
    hide LandedCost, LossCost, CycleOutcome, RankBuys, BoughtBy, SoldBy, PairsUnique, TotalFilled, Carried, Volume, UniqueIds;
    CycleConserves(buys, sells, env);
    var matches := CycleOutcome(buys, sells, env, false).matches;
    var k :| 0 <= k < |matches| && matches[k] == x;
    assert Sourced(matches[k], Start(buys, sells).buys, sells, Guarded(env));
  }

  /** At a multiplier of 1.0 or more every match settles between its ask and its bid. */
  lemma CdaMatchesFair(buys: seq<FastOrder>, sells: seq<FastOrder>, env: Env)
    requires UniqueIds(buys) && UniqueIds(sells) && Runnable(RankBuys(buys), env)
    requires NonNegativePrices(sells) && GuardMultiplier(env.multiplier) >= FACTOR
    ensures var matches := CycleOutcome(buys, sells, env, false).matches;
      forall k :: 0 <= k < |matches| ==> FairMatch(matches[k], buys, sells, env.buyMetadata)
  {
    hide LandedCost, CycleOutcome, RankBuys, BoughtBy, SoldBy, PairsUnique, TotalFilled, Carried, Volume, UniqueIds, FairMatch, IsMatchOf, Outbids, BuyKey;
    CycleConserves(buys, sells, env);
    RankBuysSorted(buys);
    var matches := CycleOutcome(buys, sells, env, false).matches;
    forall k | 0 <= k < |matches|
      ensures FairMatch(matches[k], buys, sells, env.buyMetadata)
    {
      assert Sourced(matches[k], Start(buys, sells).buys, sells, Guarded(env));
      var i, j :| 0 <= i < |Start(buys, sells).buys| && 0 <= j < |sells|
                  && IsMatchOf(matches[k], Start(buys, sells).buys[i], sells[j], Guarded(env));
      assert RankBuys(buys)[i] in buys;
      MatchOfIsFair(matches[k], RankBuys(buys)[i], sells[j], buys, sells, Guarded(env));
    }
  }

  lemma MatchOfIsFair(x: MatchResult, buy: FastOrder, sell: FastOrder, buys: seq<FastOrder>, sells: seq<FastOrder>, env: Env)
    requires IsMatchOf(x, buy, sell, env) && buy in buys && sell in sells && 0 <= sell.price && env.multiplier >= FACTOR
    ensures FairMatch(x, buys, sells, env.buyMetadata)
  {
    hide LandedCost;
    LandedCoversAsk(sell.price, FeesBetween(env.topology, sell.zone, buy.zone), env.multiplier);
  }

  // ---------- Fill or kill ----------

  lemma ServeAllOrNothing(m: Market, env: Env)
    requires Servable(m, env) && UniqueIds(m.sells) && m.buy.timeInForce.Fok?
    ensures var r := ServeBuy(m, env); r.buy == m.buy || r.buy.Remaining() == 0
  {
    hide Ranked, Drain;
    ServeBooks(m, env);
  }

  lemma {:induction false} RunAllOrNothing(c: Cycle, i: nat, env: Env)
    requires i <= |c.buys| && Runnable(c.buys, env) && UniqueIds(c.sells)
    ensures var f := Run(c, i, env, false);
      && |f.buys| == |c.buys|
      && (forall j :: 0 <= j < i ==> f.buys[j] == c.buys[j])
      && (forall j :: i <= j < |c.buys| && c.buys[j].timeInForce.Fok? ==> f.buys[j] == c.buys[j] || f.buys[j].Remaining() == 0)
    decreases |c.buys| - i
  {
    hide ServeBuy;
    if i < |c.buys| {
      if c.buys[i].timeInForce.Fok? {
        ServeAllOrNothing(c.MarketOf(i), env);
      }
      RunStep(c, i, env);
      RunAllOrNothing(c.After(i, ServeBuy(c.MarketOf(i), env)), i + 1, env);
    }
  }

  /** An immediate order with anything left and not past its expiry. */
  ghost predicate LeftOver(o: FastOrder, now: I64) {
    && (o.timeInForce == Ioc || o.timeInForce == Fok) && o.filledAmount < o.energyAmount
    && (o.expiresAt.None? || now < o.expiresAt.value)
  }

  /** A cycle reports for cancellation exactly the ids of such orders, on either side. */
  lemma {:induction false} UnrestedExactly(orders: seq<FastOrder>, now: I64, id: Uuid)
    ensures id in Unrested(orders, now) <==> exists o :: o in orders && o.id == id && LeftOver(o, now)
  {
    if orders != [] {
      var n := |orders| - 1;
      UnrestedExactly(orders[..n], now, id);
      assert forall o :: o in orders <==> o in orders[..n] || o == orders[n] by { assert orders == orders[..n] + [orders[n]]; }
    }
  }

  lemma {:induction false} UnrestedHas(orders: seq<FastOrder>, now: I64, j: nat)
    requires j < |orders| && orders[j].timeInForce.IsImmediate() && !orders[j].IsExpired(now) && orders[j].Remaining() > 0
    ensures orders[j].id in Unrested(orders, now)
    decreases |orders|
  {
    if j < |orders| - 1 {
      UnrestedHas(orders[..|orders| - 1], now, j);
    }
  }

  /** A fill-or-kill buy leaves the cycle untouched or exactly full, for any book and any
      topology; one left unfilled and unexpired is reported for cancellation. */
  lemma FillOrKill(buys: seq<FastOrder>, sells: seq<FastOrder>, env: Env, j: nat)
    requires UniqueIds(sells) && Runnable(RankBuys(buys), env)
    requires j < |buys| && RankBuys(buys)[j].timeInForce.Fok?
    ensures var before, c := RankBuys(buys)[j], CycleOutcome(buys, sells, env, false);
      && |c.buys| == |buys|
      && (c.buys[j] == before || c.buys[j].Remaining() == 0)
      && (c.buys[j] == before && before.Remaining() > 0 && !before.IsExpired(env.now) ==> before.id in Unrested(c.buys, env.now))
  {
    var c0 := Start(buys, sells);
    RunAllOrNothing(c0, 0, Guarded(env));
    var c := CycleOutcome(buys, sells, env, false);
    if c.buys[j] == c0.buys[j] && c0.buys[j].Remaining() > 0 && !c0.buys[j].IsExpired(env.now) {
      UnrestedHas(c.buys, env.now, j);
    }
  }

  // ---------- No crossing pair survives ----------

  /** Two tradeable orders that still could trade with each other at an acceptable price. */
  ghost predicate Crosses(buy: FastOrder, sell: FastOrder, env: Env) {
    && buy.Resting(env.now) && sell.Resting(env.now) && buy.userId != sell.userId
    && sell.price <= buy.price
    && LandedCost(sell.price, FeesBetween(env.topology, sell.zone, buy.zone), env.multiplier) <= buy.price
  }

  lemma {:induction false} DrainSpends(m: Market, cands: seq<Candidate>, env: Env, k: nat)
    requires Servable(m, env) && Indexed(cands, |m.sells|) && NeverRefuses(env.topology) && k < |cands|
    requires Drain(m, cands, env).buy.Remaining() >= MIN_TRADE_AMOUNT
    ensures |Drain(m, cands, env).sells| == |m.sells|
    ensures Drain(m, cands, env).sells[cands[k].sellIdx].Remaining() < MIN_TRADE_AMOUNT
    decreases |cands|
  {
    var next := FillOne(m, cands[0], env);
    DrainOnlyFills(next, cands[1..], env);
    DrainOnlyFillsSells(next, cands[1..], env);
    if k > 0 {
      DrainSpends(next, cands[1..], env, k - 1);
    }
  }

  lemma ServedCrossesNothing(m: Market, env: Env, j: nat)
    requires Servable(m, env) && UniqueIds(m.sells) && NeverRefuses(env.topology) && !m.buy.timeInForce.Fok?
    requires j < |m.sells|
    ensures var r := ServeBuy(m, env); |r.sells| == |m.sells| && !Crosses(r.buy, r.sells[j], env)
  {
    hide Ranked, Drain, LandedCost, Optimistic;
    ServeIsNaive(m, env);
    ServeKeepsTerms(m, env, false);
    var r := ServeBuy(m, env);
    if m.buy.Resting(env.now) && r.buy.Resting(env.now) && r.sells[j].Resting(env.now) {
      var need := m.buy.Remaining();
      var all := AllCandidates(m.sells, m.buy, need, env);
      DrainOnlyFillsSells(m, all, env);
      var offer := Offer(m.sells, j, m.buy, need, env);
      if offer.Some? {
        RankedMember(m.sells, |m.sells|, m.buy, need, env, j);
        var k :| 0 <= k < |all| && all[k] == offer.value;
        DrainSpends(m, all, env, k);
      }
    }
  }

  lemma {:induction false} RunCrossesNothing(c: Cycle, i: nat, env: Env)
    requires i <= |c.buys| && Runnable(c.buys, env) && UniqueIds(c.sells) && NeverRefuses(env.topology)
    ensures var f := Run(c, i, env, false);
      && |f.buys| == |c.buys| && |f.sells| == |c.sells|
      && (forall j :: 0 <= j < i ==> f.buys[j] == c.buys[j])
      && (forall k :: 0 <= k < |c.sells| ==> FilledWithin(c.sells[k], f.sells[k]))
      && (forall j, k :: i <= j < |c.buys| && 0 <= k < |c.sells| && !c.buys[j].timeInForce.Fok?
            ==> !Crosses(f.buys[j], f.sells[k], env))
    decreases |c.buys| - i
  {
    hide ServeBuy, LandedCost;
    if i < |c.buys| {
      var m := c.MarketOf(i);
      var next := c.After(i, ServeBuy(m, env));
      ServeBooks(m, env);
      RunStep(c, i, env);
      RunCrossesNothing(next, i + 1, env);
      var f := Run(c, i, env, false);
      if !c.buys[i].timeInForce.Fok? {
        forall k | 0 <= k < |c.sells| ensures !Crosses(f.buys[i], f.sells[k], env) {
          ServedCrossesNothing(m, env, k);
          assert FilledWithin(next.sells[k], f.sells[k]);
        }
      }
    }
  }

  /** When the grid refuses nothing, no crossing pair of different users survives a cycle,
      fill-or-kill buys aside. */
  lemma NoCrossingPairSurvives(buys: seq<FastOrder>, sells: seq<FastOrder>, env: Env, j: nat, k: nat)
    requires UniqueIds(sells) && Runnable(RankBuys(buys), env) && NeverRefuses(env.topology)
    requires j < |buys| && k < |sells| && !RankBuys(buys)[j].timeInForce.Fok?
    ensures var c := CycleOutcome(buys, sells, env, false);
      |c.buys| == |buys| && |c.sells| == |sells| && !Crosses(c.buys[j], c.sells[k], Guarded(env))
  {
    RunCrossesNothing(Start(buys, sells), 0, Guarded(env));
  }

  // ---------- The better buy trades first ----------

  /** A cycle keeps the buys in the order they were served. */
  lemma CycleServesInOrder(buys: seq<FastOrder>, sells: seq<FastOrder>, env: Env)
    requires UniqueIds(buys) && UniqueIds(sells) && Runnable(RankBuys(buys), env)
    ensures ServedInOrder(CycleOutcome(buys, sells, env, false).buys)
  {
    hide CycleOutcome, RankBuys, BoughtBy, SoldBy, UniqueIds, Sourced, PairsUnique, TotalFilled, Carried, Volume, BuyKey;
    CycleConserves(buys, sells, env);
    RankBuysInOrder(buys);
    InOrderServes(RankBuys(buys));
    var c0, c := Start(buys, sells), CycleOutcome(buys, sells, env, false);
    forall i, j | 0 <= i < j < |c.buys|
      ensures !Outbids(c.buys[j], c.buys[i]) && (c.buys[i].id != c.buys[j].id ==> Outbids(c.buys[i], c.buys[j]))
    {
      assert FilledWithin(c0.buys[i], c.buys[i]) && FilledWithin(c0.buys[j], c.buys[j]);
    }
  }

  /** The buy could still trade with this sell at an acceptable price. */
  ghost predicate Wants(buy: FastOrder, sell: FastOrder, env: Env) {
    && buy.Resting(env.now) && buy.userId != sell.userId && sell.price <= buy.price
    && LandedCost(sell.price, FeesBetween(env.topology, sell.zone, buy.zone), env.multiplier) <= buy.price
  }

  /** Match `n` is one of this buy's, with a sell that could trade. */
  ghost predicate MadeFor(matches: seq<MatchResult>, n: nat, buyId: Uuid, sells: seq<FastOrder>, now: I64)
    requires n < |matches|
  {
    matches[n].buyOrderId == buyId
    && exists k :: 0 <= k < |sells| && matches[n].sellOrderId == sells[k].id && Tradeable(sells[k], now)
  }

  lemma FillMakes(m: Market, c: Candidate, env: Env)
    requires Servable(m, env) && c.sellIdx < |m.sells| && !m.sells[c.sellIdx].IsExpired(env.now)
    ensures var r := FillOne(m, c, env);
      && m.matches <= r.matches
      && forall n :: |m.matches| <= n < |r.matches| ==> MadeFor(r.matches, n, m.buy.id, m.sells, env.now)
  {
  }

  /** What was resting after a fill was resting before it. */
  lemma RestedBefore(m: Market, r: Market, matches: seq<MatchResult>, n: nat, env: Env)
    requires n < |matches| && SameOrders(m.sells, r.sells) && r.buy.id == m.buy.id
    requires forall i :: 0 <= i < |m.sells| ==> r.sells[i].Remaining() <= m.sells[i].Remaining()
    requires MadeFor(matches, n, r.buy.id, r.sells, env.now)
    ensures MadeFor(matches, n, m.buy.id, m.sells, env.now)
  {
  }

  lemma {:induction false} DrainMakes(m: Market, cands: seq<Candidate>, env: Env)
    requires Servable(m, env) && Indexed(cands, |m.sells|)
    requires forall k :: 0 <= k < |cands| ==> !m.sells[cands[k].sellIdx].IsExpired(env.now)
    ensures var r := Drain(m, cands, env);
      && m.matches <= r.matches
      && forall n :: |m.matches| <= n < |r.matches| ==> MadeFor(r.matches, n, m.buy.id, m.sells, env.now)
    decreases |cands|
  {
    hide FillOne, MadeFor;
    if cands != [] && m.buy.Remaining() >= MIN_TRADE_AMOUNT {
      var next := FillOne(m, cands[0], env);
      FillMakes(m, cands[0], env);
      FillKeepsOrders(m, cands[0], env);
      DrainMakes(next, cands[1..], env);
      var r := Drain(m, cands, env);
      forall n | |m.matches| <= n < |r.matches| ensures MadeFor(r.matches, n, m.buy.id, m.sells, env.now) {
        if n < |next.matches| {
          MadeStays(next.matches, r.matches, n, m.buy.id, m.sells, env.now);
        } else {
          RestedBefore(m, next, r.matches, n, env);
        }
      }
    }
  }

  lemma MadeStays(matches: seq<MatchResult>, later: seq<MatchResult>, n: nat, buyId: Uuid, sells: seq<FastOrder>, now: I64)
    requires matches <= later && n < |matches| && MadeFor(matches, n, buyId, sells, now)
    ensures MadeFor(later, n, buyId, sells, now)
  {
  }

  lemma FillKeepsOrders(m: Market, c: Candidate, env: Env)
    requires Servable(m, env) && c.sellIdx < |m.sells|
    ensures var r := FillOne(m, c, env);
      && Servable(r, env) && SameOrders(m.sells, r.sells) && r.buy.SameTerms(m.buy)
      && (m.buy.Remaining() >= MIN_TRADE_AMOUNT ==> forall i :: 0 <= i < |m.sells| ==> r.sells[i].Remaining() <= m.sells[i].Remaining())
  {
  }

  /** What a drain over candidates of its own market makes. */
  lemma DrainOfCandidates(m: Market, buy: FastOrder, need: int, n: nat, env: Env)
    requires Servable(m, env) && n <= |AllCandidates(m.sells, buy, need, env)|
    ensures Indexed(AllCandidates(m.sells, buy, need, env)[..n], |m.sells|)
    ensures var r := Drain(m, AllCandidates(m.sells, buy, need, env)[..n], env);
      && m.matches <= r.matches && KeepsTerms(m, r)
      && (forall i :: 0 <= i < |m.sells| ==> r.sells[i].Remaining() <= m.sells[i].Remaining())
      && (forall k :: |m.matches| <= k < |r.matches| ==> MadeFor(r.matches, k, m.buy.id, m.sells, env.now))
  {
    hide MadeFor, Drain, Ranked;
    var cands := AllCandidates(m.sells, buy, need, env)[..n];
    CandidatesRest(m.sells, buy, need, env, cands);
    DrainMakes(m, cands, env);
    DrainOnlyFillsSells(m, cands, env);
    DrainKeepsTerms(m, cands, env);
  }

  lemma OptimisticMakes(m: Market, env: Env)
    requires Servable(m, env)
    ensures var r := Optimistic(m, env);
      && m.matches <= r.matches && KeepsTerms(m, r)
      && (forall i :: 0 <= i < |m.sells| ==> r.sells[i].Remaining() <= m.sells[i].Remaining())
      && (forall k :: |m.matches| <= k < |r.matches| ==> MadeFor(r.matches, k, m.buy.id, m.sells, env.now))
  {
    hide MadeFor, Drain, Ranked, CoverFrom, Supply;
    var need := m.buy.Remaining();
    var all := AllCandidates(m.sells, m.buy, need, env);
    var n := CoverFrom(all, m.sells, need, 0);
    DrainOfCandidates(m, m.buy, need, n, env);
    var first := Drain(m, all[..n], env);
    var again := AllCandidates(first.sells, first.buy, need, env);
    assert again[..|again|] == again;
    DrainOfCandidates(first, first.buy, need, |again|, env);
    var r := Optimistic(m, env);
    forall k | |m.matches| <= k < |r.matches| ensures MadeFor(r.matches, k, m.buy.id, m.sells, env.now) {
      if k < |first.matches| {
        MadeStays(first.matches, r.matches, k, m.buy.id, m.sells, env.now);
      } else {
        RestedBefore(m, first, r.matches, k, env);
      }
    }
  }

  lemma AllOrNothingMakes(m: Market, env: Env)
    requires Servable(m, env)
    ensures var r := AllOrNothing(m, env);
      && m.matches <= r.matches && KeepsTerms(m, r)
      && (forall i :: 0 <= i < |m.sells| ==> r.sells[i].Remaining() <= m.sells[i].Remaining())
      && (forall k :: |m.matches| <= k < |r.matches| ==> MadeFor(r.matches, k, m.buy.id, m.sells, env.now))
  {
    hide MadeFor, Drain, Ranked;
    var all := AllCandidates(m.sells, m.buy, m.buy.Remaining(), env);
    assert all[..|all|] == all;
    DrainOfCandidates(m, m.buy, m.buy.Remaining(), |all|, env);
  }

  /** Serving a buy makes matches of that buy, if it can trade itself, with sells that can. */
  lemma ServeMakes(m: Market, env: Env)
    requires Servable(m, env)
    ensures var r := ServeBuy(m, env);
      && m.matches <= r.matches && SameOrders(m.sells, r.sells) && r.buy.SameTerms(m.buy)
      && (forall i :: 0 <= i < |m.sells| ==> r.sells[i].Remaining() <= m.sells[i].Remaining())
      && (forall n :: |m.matches| <= n < |r.matches| ==> Tradeable(m.buy, env.now) && MadeFor(r.matches, n, m.buy.id, m.sells, env.now))
  {
    hide MadeFor, Drain, Optimistic, AllOrNothing, Ranked;
    RestingIsTradeable(m.buy, env.now);
    if m.buy.Resting(env.now) {
      if m.buy.timeInForce.Fok? {
        AllOrNothingMakes(m, env);
      } else {
        OptimisticMakes(m, env);
      }
    }
  }

  /** From position `i` on only those buys trade, and only with sells that then can. */
  lemma {:induction false} RunMakes(c: Cycle, i: nat, env: Env, n: nat)
    requires i <= |c.buys| && Runnable(c.buys, env)
    ensures c.matches <= Run(c, i, env, false).matches
    ensures var f := Run(c, i, env, false);
      |c.matches| <= n < |f.matches| ==>
        exists q :: i <= q < |c.buys| && Tradeable(c.buys[q], env.now) && MadeFor(f.matches, n, c.buys[q].id, c.sells, env.now)
    decreases |c.buys| - i
  {
    hide ServeBuy, MadeFor, Tradeable;
    if i < |c.buys| {
      var m := c.MarketOf(i);
      var next := c.After(i, ServeBuy(m, env));
      ServeMakes(m, env);
      RunStep(c, i, env);
      RunMakes(next, i + 1, env, n);
      var f := Run(c, i, env, false);
      if |c.matches| <= n < |f.matches| {
        if n < |next.matches| {
          MadeStays(next.matches, f.matches, n, m.buy.id, c.sells, env.now);
        } else {
          var q :| i + 1 <= q < |next.buys| && Tradeable(next.buys[q], env.now) && MadeFor(f.matches, n, next.buys[q].id, next.sells, env.now);
          RestedInMarket(c, next, f.matches, n, q, env);
        }
      }
    }
  }

  /** The match is of these two orders, and both could trade. */
  ghost predicate BetweenTradeable(x: MatchResult, buy: FastOrder, sell: FastOrder, now: I64) {
    buy.id == x.buyOrderId && sell.id == x.sellOrderId && Tradeable(buy, now) && Tradeable(sell, now)
  }

  /** Every match of a cycle is of a buy and a sell it was given that had enough left to trade and
      had not expired when it started. */
  lemma MatchesAreTradeable(buys: seq<FastOrder>, sells: seq<FastOrder>, env: Env, x: MatchResult)
    requires UniqueIds(buys) && Runnable(RankBuys(buys), env) && x in CycleOutcome(buys, sells, env, false).matches
    ensures exists b, a :: b in buys && a in sells && BetweenTradeable(x, b, a, env.now)
  {
    hide Run, RankBuys, Tradeable, BuyKey, Outbids;
    RankBuysSorted(buys);
    var c, f := Start(buys, sells), CycleOutcome(buys, sells, env, false);
    var n :| 0 <= n < |f.matches| && f.matches[n] == x;
    RunMakes(c, 0, Guarded(env), n);
    var q :| 0 <= q < |c.buys| && Tradeable(c.buys[q], env.now) && MadeFor(f.matches, n, c.buys[q].id, sells, env.now);
    var k :| 0 <= k < |sells| && f.matches[n].sellOrderId == sells[k].id && Tradeable(sells[k], env.now);
    assert c.buys[q] in buys && sells[k] in sells && BetweenTradeable(x, c.buys[q], sells[k], env.now);
  }

  lemma RestedInMarket(c: Cycle, next: Cycle, matches: seq<MatchResult>, n: nat, q: nat, env: Env)
    requires n < |matches| && SameOrders(c.sells, next.sells) && q < |next.buys| == |c.buys| && next.buys[q] == c.buys[q]
    requires forall i :: 0 <= i < |c.sells| ==> next.sells[i].Remaining() <= c.sells[i].Remaining()
    requires MadeFor(matches, n, next.buys[q].id, next.sells, env.now)
    ensures MadeFor(matches, n, c.buys[q].id, c.sells, env.now)
  {
  }

  lemma MadeNames(matches: seq<MatchResult>, n: nat, buyId: Uuid, sells: seq<FastOrder>, now: I64, k: nat)
    requires n < |matches| && MadeFor(matches, n, buyId, sells, now) && UniqueIds(sells)
    ensures matches[n].buyOrderId == buyId
    ensures k < |sells| && matches[n].sellOrderId == sells[k].id ==> Tradeable(sells[k], now)
  {
  }

  /** If a buy behind `p` trades with sell `k`, then `p` has no use for that sell by then. */
  lemma {:induction false} RunInTurn(c: Cycle, i: nat, env: Env, p: nat, q: nat, k: nat, n: nat)
    requires i <= p < q < |c.buys| && k < |c.sells| && Runnable(c.buys, env) && NeverRefuses(env.topology)
    requires UniqueIds(c.buys) && UniqueIds(c.sells) && !c.buys[p].timeInForce.Fok?
    requires |c.matches| <= n < |Run(c, i, env, false).matches|
    requires Run(c, i, env, false).matches[n].sellOrderId == c.sells[k].id
    requires Run(c, i, env, false).matches[n].buyOrderId == c.buys[q].id
    ensures var f := Run(c, i, env, false);
      |f.buys| == |c.buys| && f.buys[p].SameTerms(c.buys[p]) && !Wants(f.buys[p], c.sells[k], env)
    decreases |c.buys| - i
  {
    hide ServeBuy, LandedCost, MadeFor;
    var m := c.MarketOf(i);
    var next := c.After(i, ServeBuy(m, env));
    ServeMakes(m, env);
    RunStep(c, i, env);
    RunMakes(next, i + 1, env, n);
    var f := Run(c, i, env, false);
    if n < |next.matches| {
      MadeNames(next.matches, n, m.buy.id, c.sells, env.now, k);
      assert false;
    } else if i == p {
      ServedCrossesNothing(m, env, k);
      RunCrossesNothing(next, i + 1, env);
      var b :| i + 1 <= b < |next.buys| && Tradeable(next.buys[b], env.now) && MadeFor(f.matches, n, next.buys[b].id, next.sells, env.now);
      MadeNames(f.matches, n, next.buys[b].id, next.sells, env.now, k);
    } else {
      RunInTurn(next, i + 1, env, p, q, k, n);
    }
  }

  /** When the grid refuses nothing, a buy trades with a sell only after every better buy, by
      price, arrival and id, has what it can use of it: it ends the cycle full, or the sell is
      its own user's or too dear for it. Fill-or-kill buys aside. */
  lemma BetterBuyFirst(buys: seq<FastOrder>, sells: seq<FastOrder>, env: Env, better: FastOrder, buy: FastOrder, sell: FastOrder)
    requires UniqueIds(buys) && UniqueIds(sells) && Runnable(RankBuys(buys), env) && NeverRefuses(env.topology)
    requires better in buys && buy in buys && sell in sells && Outbids(better, buy) && !better.timeInForce.Fok?
    requires exists x :: x in CycleOutcome(buys, sells, env, false).matches && x.buyOrderId == buy.id && x.sellOrderId == sell.id
    ensures exists o :: o in CycleOutcome(buys, sells, env, false).buys && o.SameTerms(better) && !Wants(o, sell, Guarded(env))
  {
    hide Run, RankBuys, Wants, Outbids, BuyKey;
    RankBuysSorted(buys);
    RankBuysUnique(buys);
    var c := Start(buys, sells);
    var p :| 0 <= p < |c.buys| && c.buys[p] == better;
    var q :| 0 <= q < |c.buys| && c.buys[q] == buy;
    var k :| 0 <= k < |sells| && sells[k] == sell;
    OutbidsOneWay(better, buy);
    var f := CycleOutcome(buys, sells, env, false);
    var x :| x in f.matches && x.buyOrderId == buy.id && x.sellOrderId == sell.id;
    var n :| 0 <= n < |f.matches| && f.matches[n] == x;
    RunInTurn(c, 0, Guarded(env), p, q, k, n);
    assert f.buys[p] in f.buys;
  }

  lemma OutbidsOneWay(a: FastOrder, b: FastOrder)
    requires Outbids(a, b)
    ensures !Outbids(b, a) && a != b
  {
  }

  // ---------- The smallest market ----------

  lemma RankOne(buy: FastOrder)
    ensures RankBuys([buy]) == [buy]
  {
    assert [buy][..0] == [];
    assert RankBuys([]) == [];
  }

  lemma CrossedRest(buy: FastOrder, sell: FastOrder, env: Env)
    requires Crosses(buy, sell, env)
    ensures buy.Resting(env.now) && sell.Resting(env.now)
  {
  }

  lemma RunOneBuy(buy: FastOrder, sells: seq<FastOrder>, env: Env, naive: bool)
    requires buy.metadataIndex < |env.buyMetadata|
    ensures Runnable(RankBuys([buy]), env)
    ensures CycleOutcome([buy], sells, env, naive)
         == Cycle([buy], sells, map[], []).After(0, Serve(Market(buy, sells, map[], []), Guarded(env), naive))
  {
    hide Serve, RankBuys;
    RankOne(buy);
    var c := Cycle([buy], sells, map[], []);
    ServeKeepsTerms(c.MarketOf(0), Guarded(env), naive);
    var next := c.After(0, Serve(c.MarketOf(0), Guarded(env), naive));
    assert Run(next, 1, Guarded(env), naive) == next;
    assert Run(c, 0, Guarded(env), naive) == next;
  }

  lemma CrossingIsOffered(buy: FastOrder, sell: FastOrder, need: int, env: Env)
    requires Crosses(buy, sell, env) && NeverRefuses(env.topology)
    ensures Offer([sell], 0, buy, need, env).Some? && Fits(Offer([sell], 0, buy, need, env).value, buy, [sell], env)
    ensures AllCandidates([sell], buy, need, env) == [Offer([sell], 0, buy, need, env).value]
  {
    hide LandedCost;
    assert Ranked([sell], 0, buy, need, env) == [];
  }

  lemma DrainOne(m: Market, c: Candidate, env: Env)
    requires Servable(m, env) && c.sellIdx < |m.sells| && m.buy.Remaining() >= MIN_TRADE_AMOUNT
    ensures Drain(m, [c], env) == FillOne(m, c, env)
  {
    assert Drain(FillOne(m, c, env), [c][1..], env) == FillOne(m, c, env);
  }

  lemma LonePairFills(buy: FastOrder, sell: FastOrder, c: Candidate, env: Env)
    requires buy.metadataIndex < |env.buyMetadata| && NeverRefuses(env.topology)
    requires Crosses(buy, sell, env) && Fits(c, buy, [sell], env)
    ensures var r, take := FillOne(Market(buy, [sell], map[], []), c, env), Min(buy.Remaining(), sell.Remaining());
      && |r.matches| == 1 && IsMatchOf(r.matches[0], buy, sell, env) && r.matches[0].matchAmount == take
      && r.buy == buy.Fill(take) && r.sells == [sell.Fill(take)]
  {
    hide LandedCost;
  }

  lemma UniqueAlone(sell: FastOrder)
    ensures UniqueIds([sell])
  {
  }

  /** One buy and one sell that cross, on a grid that refuses nothing, trade with each other
      exactly once, for all the smaller of them has left; a fill-or-kill buy must be that one. */
  lemma LonePairTrades(buy: FastOrder, sell: FastOrder, env: Env)
    requires buy.metadataIndex < |env.buyMetadata| && NeverRefuses(env.topology)
    requires Crosses(buy, sell, Guarded(env)) && (buy.timeInForce.Fok? ==> buy.Remaining() <= sell.Remaining())
    ensures Runnable(RankBuys([buy]), env)
    ensures var c, take := CycleOutcome([buy], [sell], env, false), Min(buy.Remaining(), sell.Remaining());
      && |c.matches| == 1 && IsMatchOf(c.matches[0], buy, sell, Guarded(env)) && c.matches[0].matchAmount == take
      && c.buys == [buy.Fill(take)] && c.sells == [sell.Fill(take)]
  {
    CrossedRest(buy, sell, Guarded(env));
    hide CycleOutcome, RankBuys, Crosses, IsMatchOf, Optimistic, AllCandidates, Offer, FillOne, Drain, Fits, UniqueIds;
    var m, e := Market(buy, [sell], map[], []), Guarded(env);
    CrossingIsOffered(buy, sell, buy.Remaining(), e);
    var c := Offer([sell], 0, buy, buy.Remaining(), e).value;
    CandidateOf(c, buy, sell, e);
    DrainOne(m, c, e);
    UniqueAlone(sell);
    OptimisticIsFullDrain(m, e);
    LonePairFills(buy, sell, c, e);
    RunOneBuy(buy, [sell], env, false);
  }

  /** And they do not trade exactly when one of them has less than 0.001 kWh left. */
  lemma LonePairTradesExactly(buy: FastOrder, sell: FastOrder, env: Env)
    requires buy.metadataIndex < |env.buyMetadata| && NeverRefuses(env.topology) && !buy.timeInForce.Fok?
    requires buy.userId != sell.userId && sell.price <= buy.price
    requires LandedCost(sell.price, FeesBetween(env.topology, sell.zone, buy.zone), Guarded(env).multiplier) <= buy.price
    requires (buy.expiresAt.None? || env.now < buy.expiresAt.value) && (sell.expiresAt.None? || env.now < sell.expiresAt.value)
    ensures Runnable(RankBuys([buy]), env)
    ensures var milli := 10_000_000_000_000_000_000_000_000;
      CycleOutcome([buy], [sell], env, false).matches == []
      <==> buy.energyAmount - buy.filledAmount < milli || sell.energyAmount - sell.filledAmount < milli
  {
    hide LandedCost, CycleOutcome, RankBuys, IsMatchOf, UniqueIds;
    RankOne(buy);
    UniqueAlone(buy);
    RestingIsTradeable(buy, env.now);
    RestingIsTradeable(sell, env.now);
    if Tradeable(buy, env.now) && Tradeable(sell, env.now) {
      LonePairTrades(buy, sell, env);
    } else {
      var matches := CycleOutcome([buy], [sell], env, false).matches;
      if matches != [] {
        MatchesAreTradeable([buy], [sell], env, matches[0]);
        var b, a :| b in [buy] && a in [sell] && BetweenTradeable(matches[0], b, a, env.now);
        assert false;
      }
    }
  }

  lemma CandidateOf(c: Candidate, buy: FastOrder, sell: FastOrder, env: Env)
    requires Fits(c, buy, [sell], env)
    ensures c.sellIdx == 0
  {
    hide LandedCost;
  }

  /** Below a multiplier of 1.0 fairness fails: for each such multiplier there is a market whose
      match settles under its ask. */
  lemma SubUnitMultiplierUnfair(buy: FastOrder, sell: FastOrder, env: Env)
    requires 0 < env.multiplier < FACTOR && NeverRefuses(env.topology) && buy.metadataIndex < |env.buyMetadata|
    requires FeesBetween(env.topology, sell.zone, buy.zone) == ZoneFees(0, FACTOR)
    requires buy.Resting(env.now) && sell.Resting(env.now) && buy.userId != sell.userId && !buy.timeInForce.Fok?
    requires buy.price == sell.price == FACTOR
    ensures Runnable(RankBuys([buy]), env)
    ensures exists x :: x in CycleOutcome([buy], [sell], env, false).matches && x.settlePrice < x.sellerPrice
  {
    SubUnitMultiplierUndercutsAsk(env.multiplier);
    hide LandedCost, CycleOutcome, RankBuys;
    LonePairTrades(buy, sell, env);
    var x := CycleOutcome([buy], [sell], env, false).matches[0];
    assert x in CycleOutcome([buy], [sell], env, false).matches;
  }
}
