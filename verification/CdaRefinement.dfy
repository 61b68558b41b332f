/** When the optimistic pass with its one rebuild is the naive matcher. */
module CdaRefinement {
  import opened Options
  import opened FastPrices
  import opened Words
  import opened Orders
  import opened Ordering
  import opened Pricing
  import opened CdaSpec
  import opened CdaGather
  import opened CdaEngine

  ghost predicate NeverRefuses(t: Topology) {
    forall from, to, amount :: t.canAccommodate(from, to, amount)
  }

  /** Whatever a link admits, it admits less of. */
  ghost predicate DownwardClosed(t: Topology) {
    forall from, to, a, b :: a <= b && t.canAccommodate(from, to, b) ==> t.canAccommodate(from, to, a)
  }

  /** Every sell that can trade this cycle is in one zone. */
  ghost predicate OneSellZone(sells: seq<FastOrder>, now: I64) {
    forall i, j :: 0 <= i < |sells| && 0 <= j < |sells| && sells[i].Resting(now) && sells[j].Resting(now)
      ==> sells[i].zone == sells[j].zone
  }

  // ---------- Draining ----------

  lemma {:induction false} DrainAppend(m: Market, p: seq<Candidate>, r: seq<Candidate>, env: Env)
    requires Servable(m, env) && Indexed(p, |m.sells|) && Indexed(r, |m.sells|)
    ensures Servable(Drain(m, p, env), env) && |Drain(m, p, env).sells| == |m.sells|
    ensures Drain(m, p + r, env) == Drain(Drain(m, p, env), r, env)
    decreases |p|
  {
    DrainKeepsTerms(m, p, env);
    if p == [] {
      assert p + r == r;
    } else if m.buy.Remaining() >= MIN_TRADE_AMOUNT {
      assert (p + r)[0] == p[0] && (p + r)[1..] == p[1..] + r;
      DrainAppend(FillOne(m, p[0], env), p[1..], r, env);
    }
  }

  lemma {:induction false} SupplyCons(cands: seq<Candidate>, sells: seq<FastOrder>)
    requires Indexed(cands, |sells|) && cands != []
    ensures Supply(cands, sells) == sells[cands[0].sellIdx].Remaining() + Supply(cands[1..], sells)
    decreases |cands|
  {
    var n := |cands| - 1;
    if n > 0 {
      SupplyCons(cands[..n], sells);
      assert cands[..n][1..] == cands[1..][..n - 1];
    }
  }

  lemma {:induction false} SupplyOfUntouched(m: Market, sells: seq<FastOrder>, cands: seq<Candidate>)
    requires Untouched(m, sells, cands)
    ensures Supply(cands, m.sells) == Supply(cands, sells)
    decreases |cands|
  {
    if cands != [] {
      SupplyOfUntouched(m, sells, cands[..|cands| - 1]);
    }
  }

  /** With nothing refused, a supply that covers the need fills the buy. */
  lemma {:induction false} CoverFills(m: Market, cands: seq<Candidate>, env: Env)
    requires Servable(m, env) && Indexed(cands, |m.sells|) && DistinctSells(cands) && NeverRefuses(env.topology)
    requires forall k :: 0 <= k < |cands| ==> m.sells[cands[k].sellIdx].Remaining() >= MIN_TRADE_AMOUNT
    requires Supply(cands, m.sells) >= m.buy.Remaining()
    ensures Drain(m, cands, env).buy.Remaining() < MIN_TRADE_AMOUNT
    decreases |cands|
  {
    if cands != [] && m.buy.Remaining() >= MIN_TRADE_AMOUNT {
      var next := FillOne(m, cands[0], env);
      FillLeavesTail(m, m.sells, cands, env);
      SupplyCons(cands, m.sells);
      SupplyOfUntouched(next, m.sells, cands[1..]);
      if next.buy.Remaining() >= MIN_TRADE_AMOUNT {
        CoverFills(next, cands[1..], env);
      }
    }
  }

  lemma CandidatesTrade(sells: seq<FastOrder>, buy: FastOrder, need: int, env: Env)
    ensures var all := AllCandidates(sells, buy, need, env);
      forall k :: 0 <= k < |all| ==> sells[all[k].sellIdx].Resting(env.now)
  {
    var all := AllCandidates(sells, buy, need, env);
    forall k | 0 <= k < |all| ensures sells[all[k].sellIdx].Resting(env.now) {
      assert Offer(sells, all[k].sellIdx, buy, need, env) == Some(all[k]);
    }
  }

  /** With nothing refused, the truncated pass already fills the buy, so it never rebuilds and
      agrees with draining every candidate. */
  lemma OptimisticIsFullDrain(m: Market, env: Env)
    requires Servable(m, env) && UniqueIds(m.sells) && NeverRefuses(env.topology)
    ensures Optimistic(m, env) == Drain(m, AllCandidates(m.sells, m.buy, m.buy.Remaining(), env), env)
  {
    hide Ranked, Offer, Drain, Supply, CoverFrom;
    var need := m.buy.Remaining();
    var all := AllCandidates(m.sells, m.buy, need, env);
    var n := CoverFrom(all, m.sells, need, 0);
    CandidatesDistinct(m.sells, m.buy, need, env);
    CandidatesTrade(m.sells, m.buy, need, env);
    assert all == all[..n] + all[n..];
    DrainAppend(m, all[..n], all[n..], env);
    if Supply(all[..n], m.sells) >= need {
      CoverFills(m, all[..n], env);
    }
    DrainNothing(Drain(m, all[..n], env), all[n..], env);
  }

  lemma DrainNothing(m: Market, cands: seq<Candidate>, env: Env)
    requires Servable(m, env) && Indexed(cands, |m.sells|)
    requires cands == [] || m.buy.Remaining() < MIN_TRADE_AMOUNT
    ensures Drain(m, cands, env) == m
  {
  }

  // ---------- One sell zone with finite capacity ----------

  /** Nothing can be filled from `c` any more: its sell is spent or its link is full. */
  predicate Stuck(m: Market, c: Candidate, env: Env)
    requires c.sellIdx < |m.sells|
  {
    var sell := m.sells[c.sellIdx];
    || sell.Remaining() < MIN_TRADE_AMOUNT
    || !env.topology.canAccommodate(sell.zone, m.buy.zone,
          FlowOn(m.flow, Link(sell.zone, m.buy.zone)) + Min(m.buy.Remaining(), sell.Remaining()))
  }

  ghost predicate AllStuck(m: Market, cands: seq<Candidate>, env: Env)
    requires Indexed(cands, |m.sells|)
  {
    forall k :: 0 <= k < |cands| ==> Stuck(m, cands[k], env)
  }

  /** A candidate stuck before a fill on the same link is stuck after it: what the fill adds to
      the link it takes from the need, so the revisit asks for at least as much in total. */
  lemma StuckStays(m: Market, c: Candidate, d: Candidate, env: Env)
    requires Servable(m, env) && DownwardClosed(env.topology)
    requires c.sellIdx < |m.sells| && d.sellIdx < |m.sells| && m.sells[c.sellIdx].zone == m.sells[d.sellIdx].zone
    requires Stuck(m, c, env) && FillOne(m, d, env).buy.Remaining() >= MIN_TRADE_AMOUNT
    ensures Stuck(FillOne(m, d, env), c, env)
  {
  }

  /** A fill that leaves the buy short leaves its own candidate stuck. */
  lemma FillSticks(m: Market, d: Candidate, env: Env)
    requires Servable(m, env) && d.sellIdx < |m.sells|
    requires FillOne(m, d, env).buy.Remaining() >= MIN_TRADE_AMOUNT
    ensures Stuck(FillOne(m, d, env), d, env)
  {
  }

  ghost predicate FromZone(cands: seq<Candidate>, sells: seq<FastOrder>, zone: Zone)
    requires Indexed(cands, |sells|)
  {
    forall k :: 0 <= k < |cands| ==> sells[cands[k].sellIdx].zone == zone
  }

  /** A drain that leaves the buy short leaves every candidate it saw stuck. */
  lemma {:induction false} DrainSticks(m: Market, seen: seq<Candidate>, cands: seq<Candidate>, zone: Zone, env: Env)
    requires Servable(m, env) && DownwardClosed(env.topology)
    requires Indexed(seen, |m.sells|) && Indexed(cands, |m.sells|)
    requires FromZone(seen, m.sells, zone) && FromZone(cands, m.sells, zone) && AllStuck(m, seen, env)
    requires Drain(m, cands, env).buy.Remaining() >= MIN_TRADE_AMOUNT
    ensures var r := Drain(m, cands, env);
      |r.sells| == |m.sells| && AllStuck(r, seen, env) && AllStuck(r, cands, env)
    decreases |cands|
  {
    DrainKeepsTerms(m, cands, env);
    if cands != [] {
      var next := FillOne(m, cands[0], env);
      DrainOnlyFills(next, cands[1..], env);
      forall k | 0 <= k < |seen| ensures Stuck(next, seen[k], env) {
        StuckStays(m, seen[k], cands[0], env);
      }
      FillSticks(m, cands[0], env);
      DrainSticks(next, seen + [cands[0]], cands[1..], zone, env);
      var r := Drain(m, cands, env);
      forall k | 0 <= k < |seen| ensures Stuck(r, seen[k], env) {
        assert Stuck(r, (seen + [cands[0]])[k], env);
      }
      forall k | 0 <= k < |cands| ensures Stuck(r, cands[k], env) {
        if k == 0 {
          assert Stuck(r, (seen + [cands[0]])[|seen|], env);
        } else {
          assert Stuck(r, cands[1..][k - 1], env);
        }
      }
    }
  }

  /** The need only shrinks. */
  lemma {:induction false} DrainOnlyFills(m: Market, cands: seq<Candidate>, env: Env)
    requires Servable(m, env) && Indexed(cands, |m.sells|)
    ensures Drain(m, cands, env).buy.Remaining() <= m.buy.Remaining()
    decreases |cands|
  {
    if cands != [] && m.buy.Remaining() >= MIN_TRADE_AMOUNT {
      DrainOnlyFills(FillOne(m, cands[0], env), cands[1..], env);
    }
  }

  lemma {:induction false} DrainOfStuck(m: Market, cands: seq<Candidate>, env: Env)
    requires Servable(m, env) && Indexed(cands, |m.sells|) && AllStuck(m, cands, env)
    ensures Drain(m, cands, env) == m
    decreases |cands|
  {
    if cands != [] && m.buy.Remaining() >= MIN_TRADE_AMOUNT {
      assert FillOne(m, cands[0], env) == m;
      forall k | 0 <= k < |cands[1..]| ensures Stuck(m, cands[1..][k], env) {
        assert Stuck(m, cands[k + 1], env);
      }
      DrainOfStuck(m, cands[1..], env);
    }
  }

  // ---------- The candidates of a rebuild ----------

  /** The candidates whose sells can still trade. */
  function Live(cands: seq<Candidate>, sells: seq<FastOrder>): seq<Candidate>
    requires Indexed(cands, |sells|)
  {
    if cands == [] then []
    else (if sells[cands[0].sellIdx].Remaining() >= MIN_TRADE_AMOUNT then [cands[0]] else []) + Live(cands[1..], sells)
  }

  lemma {:induction false} LiveMember(cands: seq<Candidate>, sells: seq<FastOrder>, c: Candidate)
    requires Indexed(cands, |sells|)
    ensures c in Live(cands, sells) ==> c in cands
  {
    if cands != [] {
      LiveMember(cands[1..], sells, c);
    }
  }

  lemma LiveCons(c: Candidate, cands: seq<Candidate>, sells: seq<FastOrder>)
    requires Indexed(cands, |sells|) && c.sellIdx < |sells|
    ensures Live([c] + cands, sells)
         == (if sells[c.sellIdx].Remaining() >= MIN_TRADE_AMOUNT then [c] else []) + Live(cands, sells)
  {
    assert ([c] + cands)[1..] == cands;
  }

  lemma {:induction false} InsertIndexed(cands: seq<Candidate>, n: nat, c: Candidate)
    requires Indexed(cands, n) && c.sellIdx < n
    ensures Indexed(Insert(cands, c, CandidateKey), n)
  {
    var r := Insert(cands, c, CandidateKey);
    forall k | 0 <= k < |r| ensures r[k].sellIdx < n {
      InsertMember(cands, c, CandidateKey, r[k]);
    }
  }

  /** A candidate that precedes all of `cands` precedes whichever of them are live. */
  lemma InsertFront(cands: seq<Candidate>, sells: seq<FastOrder>, c: Candidate)
    requires Indexed(cands, |sells|) && StrictlySorted(cands, CandidateKey)
    requires cands != [] && CandidateKey(c).Less(CandidateKey(cands[0]))
    ensures Insert(Live(cands, sells), c, CandidateKey) == [c] + Live(cands, sells)
  {
    var live := Live(cands, sells);
    if live != [] {
      LiveMember(cands, sells, live[0]);
      var k :| 0 <= k < |cands| && cands[k] == live[0];
      KeysInOrder(cands, 0, k);
    }
  }

  lemma {:induction false} LiveInsert(cands: seq<Candidate>, sells: seq<FastOrder>, c: Candidate)
    requires Indexed(cands, |sells|) && c.sellIdx < |sells| && StrictlySorted(cands, CandidateKey)
    requires Indexed(Insert(cands, c, CandidateKey), |sells|)
    ensures Live(Insert(cands, c, CandidateKey), sells)
         == if sells[c.sellIdx].Remaining() >= MIN_TRADE_AMOUNT then Insert(Live(cands, sells), c, CandidateKey)
            else Live(cands, sells)
  {
    hide Live, CandidateKey;
    if cands == [] {
      LiveNil(sells);
      LiveCons(c, [], sells);
      assert [c] + [] == [c];
    } else if CandidateKey(c).Less(CandidateKey(cands[0])) {
      LiveCons(c, cands, sells);
      InsertFront(cands, sells, c);
    } else {
      var rest := Insert(cands[1..], c, CandidateKey);
      InsertIndexed(cands[1..], |sells|, c);
      LiveInsert(cands[1..], sells, c);
      LiveCons(cands[0], rest, sells);
      LiveCons(cands[0], cands[1..], sells);
      assert [cands[0]] + cands[1..] == cands;
      InsertBehind(Live(cands[1..], sells), cands[0], c);
      assert forall s: seq<Candidate> :: [] + s == s;
    }
  }

  lemma InsertBehind(s: seq<Candidate>, head: Candidate, c: Candidate)
    requires !CandidateKey(c).Less(CandidateKey(head))
    ensures Insert([head] + s, c, CandidateKey) == [head] + Insert(s, c, CandidateKey)
  {
    assert ([head] + s)[1..] == s;
  }

  lemma LiveNil(sells: seq<FastOrder>)
    ensures Live([], sells) == []
  {
  }

  /** Between two gathers for one buy, each sell was left alone or used up. */
  ghost predicate LeftOrSpent(before: seq<FastOrder>, after: seq<FastOrder>) {
    |before| == |after|
    && forall i :: 0 <= i < |before| ==> after[i] == before[i] || after[i].Remaining() < MIN_TRADE_AMOUNT
  }

  lemma {:induction false} DrainLeavesOrSpends(m: Market, cands: seq<Candidate>, env: Env)
    requires Servable(m, env) && Indexed(cands, |m.sells|)
    requires Drain(m, cands, env).buy.Remaining() >= MIN_TRADE_AMOUNT
    ensures LeftOrSpent(m.sells, Drain(m, cands, env).sells)
    decreases |cands|
  {
    if cands != [] {
      var next := FillOne(m, cands[0], env);
      DrainOnlyFills(next, cands[1..], env);
      DrainLeavesOrSpends(next, cands[1..], env);
    }
  }

  /** A rebuild offers exactly the candidates of the first gather that can still trade. */
  lemma {:induction false} RebuildIsLive(before: seq<FastOrder>, after: seq<FastOrder>, n: nat,
                                         buy: FastOrder, buy': FastOrder, need: int, env: Env)
    requires n <= |before| && LeftOrSpent(before, after) && UniqueIds(before) && buy'.SameTerms(buy)
    ensures Ranked(after, n, buy', need, env) == Live(Ranked(before, n, buy, need, env), after)
  {
    hide Offer, CandidateKey, Insert, Live;
    if n == 0 {
      LiveNil(after);
    } else {
      RebuildIsLive(before, after, n - 1, buy, buy', need, env);
      var rest := Ranked(before, n - 1, buy, need, env);
      RankedSorted(before, n - 1, buy, need, env);
      var offer := Offer(before, n - 1, buy, need, env);
      OfferAgain(before, after, n - 1, buy, buy', need, env);
      if offer.Some? {
        OfferIdentity(before, n - 1, buy, need, env, offer.value);
        InsertIndexed(rest, |after|, offer.value);
        LiveInsert(rest, after, offer.value);
      }
    }
  }

  lemma OfferAgain(before: seq<FastOrder>, after: seq<FastOrder>, i: nat, buy: FastOrder, buy': FastOrder, need: int, env: Env)
    requires i < |before| && LeftOrSpent(before, after) && buy'.SameTerms(buy)
    ensures Offer(after, i, buy', need, env)
         == if after[i].Remaining() >= MIN_TRADE_AMOUNT then Offer(before, i, buy, need, env) else None
  {
  }

  /** Candidates whose sells are already spent make no difference to a drain. */
  lemma {:induction false} DrainOfLive(m: Market, cands: seq<Candidate>, sells: seq<FastOrder>, env: Env)
    requires Servable(m, env) && |m.sells| == |sells| && Indexed(cands, |sells|)
    requires forall i :: 0 <= i < |sells| && sells[i].Remaining() < MIN_TRADE_AMOUNT ==> m.sells[i].Remaining() < MIN_TRADE_AMOUNT
    ensures Indexed(Live(cands, sells), |sells|)
    ensures Drain(m, Live(cands, sells), env) == Drain(m, cands, env)
    decreases |cands|
  {
    if cands != [] {
      var live := Live(cands, sells);
      if sells[cands[0].sellIdx].Remaining() >= MIN_TRADE_AMOUNT {
        assert live[1..] == Live(cands[1..], sells);
        DrainOfLive(FillOne(m, cands[0], env), cands[1..], sells, env);
      } else {
        assert FillOne(m, cands[0], env) == m;
        assert live == Live(cands[1..], sells);
        DrainOfLive(m, cands[1..], sells, env);
      }
    }
  }

  /** With all tradeable sells in one zone and a downward-closed grid, the optimistic pass plus
      its rebuild fills the buy exactly as one pass over every candidate. */
  lemma OptimisticInOneZone(m: Market, env: Env)
    requires Servable(m, env) && UniqueIds(m.sells)
    requires DownwardClosed(env.topology) && OneSellZone(m.sells, env.now)
    ensures Optimistic(m, env) == Drain(m, AllCandidates(m.sells, m.buy, m.buy.Remaining(), env), env)
  {
    hide Ranked, Offer, Drain, Supply, CoverFrom, Stuck, Live;
    var need := m.buy.Remaining();
    var all := AllCandidates(m.sells, m.buy, need, env);
    var n := CoverFrom(all, m.sells, need, 0);
    assert all == all[..n] + all[n..];
    DrainAppend(m, all[..n], all[n..], env);
    var first := Drain(m, all[..n], env);
    if first.buy.Remaining() < MIN_TRADE_AMOUNT || Supply(all[..n], m.sells) < need {
      DrainNothing(first, all[n..], env);
    } else {
      DrainKeepsTerms(m, all[..n], env);
      CandidatesTrade(m.sells, m.buy, need, env);
      var zone := if n > 0 then m.sells[all[0].sellIdx].zone else m.buy.zone;
      DrainSticks(m, [], all[..n], zone, env);
      DrainLeavesOrSpends(m, all[..n], env);
      RebuildIsLive(m.sells, first.sells, |m.sells|, m.buy, first.buy, need, env);
      DrainOfLive(first, all, first.sells, env);
      DrainAppend(first, all[..n], all[n..], env);
      DrainOfStuck(first, all[..n], env);
    }
  }

  // ---------- The whole cycle ----------

  /** When the fast form is exact: the grid refuses nothing, or every sell that can trade is
      in one zone and capacities are downward closed. */
  ghost predicate FastFormIsExact(sells: seq<FastOrder>, env: Env) {
    || NeverRefuses(env.topology)
    || (DownwardClosed(env.topology) && OneSellZone(sells, env.now))
  }

  lemma {:induction false} DrainOnlyFillsSells(m: Market, cands: seq<Candidate>, env: Env)
    requires Servable(m, env) && Indexed(cands, |m.sells|)
    ensures var r := Drain(m, cands, env);
      SameOrders(m.sells, r.sells) && forall i :: 0 <= i < |m.sells| ==> r.sells[i].Remaining() <= m.sells[i].Remaining()
    decreases |cands|
  {
    if cands != [] && m.buy.Remaining() >= MIN_TRADE_AMOUNT {
      DrainOnlyFillsSells(FillOne(m, cands[0], env), cands[1..], env);
    }
  }

  /** Serving a buy keeps the fast form exact for the next one. */
  lemma ExactnessKept(m: Market, env: Env)
    requires Servable(m, env) && FastFormIsExact(m.sells, env) && UniqueIds(m.sells)
    ensures var r := ServeNaively(m, env);
      FastFormIsExact(r.sells, env) && UniqueIds(r.sells)
  {
    hide Ranked, Drain;
    DrainOnlyFillsSells(m, AllCandidates(m.sells, m.buy, m.buy.Remaining(), env), env);
  }

  lemma ServeIsNaive(m: Market, env: Env)
    requires Servable(m, env) && FastFormIsExact(m.sells, env) && UniqueIds(m.sells)
    ensures ServeBuy(m, env) == ServeNaively(m, env)
  {
    hide Optimistic, AllCandidates, Drain;
    if NeverRefuses(env.topology) {
      OptimisticIsFullDrain(m, env);
    } else {
      OptimisticInOneZone(m, env);
    }
  }

  lemma {:induction false} RunIsNaive(c: Cycle, i: nat, env: Env)
    requires i <= |c.buys| && Runnable(c.buys, env) && FastFormIsExact(c.sells, env) && UniqueIds(c.sells)
    ensures Run(c, i, env, false) == Run(c, i, env, true)
    decreases |c.buys| - i
  {
    hide ServeBuy, ServeNaively;
    if i < |c.buys| {
      ServeKeepsTerms(c.MarketOf(i), env, true);
      ServeIsNaive(c.MarketOf(i), env);
      ExactnessKept(c.MarketOf(i), env);
      RunIsNaive(c.After(i, Serve(c.MarketOf(i), env, true)), i + 1, env);
    }
  }

  /** The whole cycle emits exactly the naive matcher's matches and fills. */
  lemma CycleIsNaive(buys: seq<FastOrder>, sells: seq<FastOrder>, env: Env)
    requires Runnable(RankBuys(buys), env) && UniqueIds(sells) && FastFormIsExact(sells, env)
    ensures CycleOutcome(buys, sells, env, false) == CycleOutcome(buys, sells, env, true)
  {
    RunIsNaive(Start(buys, sells), 0, env.(multiplier := GuardMultiplier(env.multiplier)));
  }

  /** The buys are served in the only order that bid, arrival and id allow, whatever sort the
      caller used before. */
  lemma {:induction false} RankBuysSorted(buys: seq<FastOrder>)
    requires UniqueIds(buys)
    ensures StrictlySorted(RankBuys(buys), BuyKey)
    ensures forall i, j :: 0 <= i < j < |buys| ==> Outbids(RankBuys(buys)[i], RankBuys(buys)[j])
    ensures forall o :: o in RankBuys(buys) <==> o in buys
  {
    if buys != [] {
      var n := |buys| - 1;
      RankBuysSorted(buys[..n]);
      forall i | 0 <= i < n ensures BuyKey(RankBuys(buys[..n])[i]) != BuyKey(buys[n]) {
        var o := RankBuys(buys[..n])[i];
        assert o in buys[..n];
        var k :| 0 <= k < n && buys[k] == o;
      }
      InsertSorted(RankBuys(buys[..n]), buys[n], BuyKey);
      forall o: FastOrder ensures o in RankBuys(buys) <==> o in buys {
        InsertMember(RankBuys(buys[..n]), buys[n], BuyKey, o);
        assert buys == buys[..n] + [buys[n]];
      }
    }
    forall i, j | 0 <= i < j < |buys| ensures Outbids(RankBuys(buys)[i], RankBuys(buys)[j]) {
      BuyKeyOutbids(RankBuys(buys)[i], RankBuys(buys)[j]);
    }
  }

  lemma RankIgnoresCallerOrder(buys: seq<FastOrder>, shuffled: seq<FastOrder>)
    requires UniqueIds(buys) && UniqueIds(shuffled) && forall o :: o in buys <==> o in shuffled
    ensures RankBuys(buys) == RankBuys(shuffled)
  {
    RankBuysSorted(buys);
    RankBuysSorted(shuffled);
    SortedUnique(RankBuys(buys), RankBuys(shuffled), BuyKey);
  }
}
