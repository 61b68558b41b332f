/** What one matching cycle computes, as functions of values: the engine's own optimistic
    pass with at most one rebuild, and the naive matcher that sorts every sell and drains. */
module CdaSpec {
  import opened Options
  import opened FastPrices
  import opened Words
  import opened Orders
  import opened Ordering
  import opened Pricing

  datatype Env = Env(topology: Topology, multiplier: I64, now: I64, buyMetadata: seq<OrderMetadata>)

  datatype Link = Link(from: Zone, to: Zone)

  /** Energy committed per link this cycle. */
  type Flow = map<Link, int>

  function FlowOn(flow: Flow, link: Link): int { if link in flow then flow[link] else 0 }

  /** A non-positive multiplier is a misconfiguration and counts as 1.0. */
  function GuardMultiplier(multiplier: I64): I64 { if multiplier <= 0 then FACTOR else multiplier }

  function FeesBetween(topology: Topology, from: Zone, to: Zone): ZoneFees {
    ZoneFees(topology.wheeling(from, to), topology.loss(from, to))
  }

  /** The amount one fill takes, or `None` when the sell is too small to trade. */
  function FillTake(need: int, avail: int): Option<int> {
    if avail < MIN_TRADE_AMOUNT then None else Some(Min(need, avail))
  }

  // ---------- Candidates ----------

  /** Sell `i` as a candidate for the buy: resting, reachable at the minimum flow, and priced. */
  function Offer(sells: seq<FastOrder>, i: nat, buy: FastOrder, need: int, env: Env): Option<Candidate>
    requires i < |sells|
  {
    if !sells[i].Resting(env.now) || !env.topology.canAccommodate(sells[i].zone, buy.zone, MIN_TRADE_AMOUNT) then None
    else PricedCandidate(buy, need, i, sells[i], env.topology, FeesBetween(env.topology, sells[i].zone, buy.zone), env.multiplier)
  }

  /** The offers among the first `n` sells, in fill order. */
  function Ranked(sells: seq<FastOrder>, n: nat, buy: FastOrder, need: int, env: Env): (r: seq<Candidate>)
    requires n <= |sells|
    ensures forall k :: 0 <= k < |r| ==> r[k].sellIdx < n
    ensures forall k :: 0 <= k < |r| ==> Offer(sells, r[k].sellIdx, buy, need, env) == Some(r[k])
  {
    if n == 0 then []
    else
      var rest := Ranked(sells, n - 1, buy, need, env);
      match Offer(sells, n - 1, buy, need, env)
      case None => rest
      case Some(c) =>
        assert forall k | 0 <= k < |Insert(rest, c, CandidateKey)| ::
            Insert(rest, c, CandidateKey)[k] == c || Insert(rest, c, CandidateKey)[k] in rest by {
          forall k | 0 <= k < |Insert(rest, c, CandidateKey)|
            ensures Insert(rest, c, CandidateKey)[k] == c || Insert(rest, c, CandidateKey)[k] in rest
          {
            InsertMember(rest, c, CandidateKey, Insert(rest, c, CandidateKey)[k]);
          }
        }
        Insert(rest, c, CandidateKey)
  }

  /** Every viable sell for the buy, sorted by (landed, ask, time, id). */
  function AllCandidates(sells: seq<FastOrder>, buy: FastOrder, need: int, env: Env): (r: seq<Candidate>) {
    Ranked(sells, |sells|, buy, need, env)
  }

  /** Resting energy behind a list of candidates. */
  function Supply(cands: seq<Candidate>, sells: seq<FastOrder>): int
    requires Indexed(cands, |sells|)
  {
    if cands == [] then 0
    else Supply(cands[..|cands| - 1], sells) + sells[cands[|cands| - 1].sellIdx].Remaining()
  }

  ghost predicate Indexed(cands: seq<Candidate>, n: nat) {
    forall k :: 0 <= k < |cands| ==> cands[k].sellIdx < n
  }

  /** Length of the shortest prefix of `cands`, at least `k` long, whose supply covers `need`;
      the whole list when none does. */
  function CoverFrom(cands: seq<Candidate>, sells: seq<FastOrder>, need: int, k: nat): (n: nat)
    requires k <= |cands| && Indexed(cands, |sells|)
    ensures k <= n <= |cands|
    ensures forall j :: k <= j < n ==> Supply(cands[..j], sells) < need
    ensures n == |cands| || Supply(cands[..n], sells) >= need
    decreases |cands| - k
  {
    if k == |cands| || Supply(cands[..k], sells) >= need then k else CoverFrom(cands, sells, need, k + 1)
  }

  // ---------- One buy ----------

  /** One buy being served: the buy, the sells, the link ledger and the matches so far. */
  datatype Market = Market(buy: FastOrder, sells: seq<FastOrder>, flow: Flow, matches: seq<MatchResult>)

  ghost predicate Servable(m: Market, env: Env) { m.buy.metadataIndex < |env.buyMetadata| }

  function MakeMatch(buy: FastOrder, sell: FastOrder, c: Candidate, amount: int, epochId: Uuid): (r: MatchResult)
    ensures r.matchAmount == amount
  {
    MatchResult(buy.id, sell.id, buy.metadataIndex, sell.metadataIndex, amount, c.landed, c.landed,
                sell.price, buy.price, amount * c.landed, amount * c.wheeling, c.loss, amount * c.lossCost,
                buy.zone, sell.zone, buy.userId, sell.userId, epochId)
  }

  /** Fill the buy from one candidate, unless the sell is too small or its link is full. */
  function FillOne(m: Market, c: Candidate, env: Env): Market
    requires Servable(m, env) && c.sellIdx < |m.sells|
  {
    var sell := m.sells[c.sellIdx];
    var link := Link(sell.zone, m.buy.zone);
    match FillTake(m.buy.Remaining(), sell.Remaining())
    case None => m
    case Some(take) =>
      var total := FlowOn(m.flow, link) + take;
      if !env.topology.canAccommodate(link.from, link.to, total) then m
      else Market(m.buy.Fill(take), m.sells[c.sellIdx := sell.Fill(take)], m.flow[link := total],
                  m.matches + [MakeMatch(m.buy, sell, c, take, env.buyMetadata[m.buy.metadataIndex].epochId)])
  }

  /** Fill from the candidates in order until the buy is done. */
  function Drain(m: Market, cands: seq<Candidate>, env: Env): Market
    requires Servable(m, env) && Indexed(cands, |m.sells|)
    decreases |cands|
  {
    if cands == [] || m.buy.Remaining() < MIN_TRADE_AMOUNT then m
    else Drain(FillOne(m, cands[0], env), cands[1..], env)
  }

  /** Fill-or-kill: the full drain if it leaves nothing over, otherwise nothing. */
  function AllOrNothing(m: Market, env: Env): Market
    requires Servable(m, env)
  {
    var drained := Drain(m, AllCandidates(m.sells, m.buy, m.buy.Remaining(), env), env);
    if drained.buy.Remaining() > 0 then m else drained
  }

  /** The optimistic pass over the shortest covering prefix, then one full rebuild when that
      pass was cut short and left the buy unfilled. */
  function Optimistic(m: Market, env: Env): Market
    requires Servable(m, env)
  {
    var need := m.buy.Remaining();
    var all := AllCandidates(m.sells, m.buy, need, env);
    var n := CoverFrom(all, m.sells, need, 0);
    var first := Drain(m, all[..n], env);
    DrainKeepsTerms(m, all[..n], env);
    if first.buy.Remaining() >= MIN_TRADE_AMOUNT && Supply(all[..n], m.sells) >= need
    then Drain(first, AllCandidates(first.sells, first.buy, need, env), env)
    else first
  }

  function ServeBuy(m: Market, env: Env): Market
    requires Servable(m, env)
  {
    if !m.buy.Resting(env.now) then m
    else if m.buy.timeInForce.Fok? then AllOrNothing(m, env)
    else Optimistic(m, env)
  }

  /** The naive matcher: sort every eligible sell, drain in order. */
  function ServeNaively(m: Market, env: Env): Market
    requires Servable(m, env)
  {
    if !m.buy.Resting(env.now) then m
    else if m.buy.timeInForce.Fok? then AllOrNothing(m, env)
    else Drain(m, AllCandidates(m.sells, m.buy, m.buy.Remaining(), env), env)
  }

  /** Draining changes fills only. */
  lemma {:induction false} DrainKeepsTerms(m: Market, cands: seq<Candidate>, env: Env)
    requires Servable(m, env) && Indexed(cands, |m.sells|)
    ensures KeepsTerms(m, Drain(m, cands, env))
    decreases |cands|
  {
    if cands != [] && m.buy.Remaining() >= MIN_TRADE_AMOUNT {
      DrainKeepsTerms(FillOne(m, cands[0], env), cands[1..], env);
    }
  }

  // ---------- The whole cycle ----------

  /** Buy priority: price descending, then arrival, then id. */
  function BuyKey(o: FastOrder): Key { Key(0 - o.price, o.createdAt, o.id, 0) }

  lemma BuyKeyOutbids(a: FastOrder, b: FastOrder)
    ensures BuyKey(a).Less(BuyKey(b)) <==> Outbids(a, b)
  {
  }

  function RankBuys(buys: seq<FastOrder>): (r: seq<FastOrder>)
    ensures |r| == |buys|
  {
    if buys == [] then [] else Insert(RankBuys(buys[..|buys| - 1]), buys[|buys| - 1], BuyKey)
  }

  datatype Cycle = Cycle(buys: seq<FastOrder>, sells: seq<FastOrder>, flow: Flow, matches: seq<MatchResult>) {
    function MarketOf(i: nat): Market
      requires i < |buys|
    {
      Market(buys[i], sells, flow, matches)
    }

    function After(i: nat, m: Market): Cycle
      requires i < |buys|
    {
      Cycle(buys[i := m.buy], m.sells, m.flow, m.matches)
    }
  }

  ghost predicate Runnable(buys: seq<FastOrder>, env: Env) {
    forall i :: 0 <= i < |buys| ==> buys[i].metadataIndex < |env.buyMetadata|
  }

  function Serve(m: Market, env: Env, naive: bool): Market
    requires Servable(m, env)
  {
    if naive then ServeNaively(m, env) else ServeBuy(m, env)
  }

  ghost predicate KeepsTerms(m: Market, r: Market) {
    r.buy.SameTerms(m.buy) && SameOrders(m.sells, r.sells)
  }

  lemma OptimisticKeepsTerms(m: Market, env: Env)
    requires Servable(m, env)
    ensures KeepsTerms(m, Optimistic(m, env))
  {
    var need := m.buy.Remaining();
    var all := AllCandidates(m.sells, m.buy, need, env);
    var n := CoverFrom(all, m.sells, need, 0);
    DrainKeepsTerms(m, all[..n], env);
    var first := Drain(m, all[..n], env);
    DrainKeepsTerms(first, AllCandidates(first.sells, first.buy, need, env), env);
  }

  lemma ServeKeepsTerms(m: Market, env: Env, naive: bool)
    requires Servable(m, env)
    ensures KeepsTerms(m, Serve(m, env, naive))
  {
    if naive || m.buy.timeInForce.Fok? {
      DrainKeepsTerms(m, AllCandidates(m.sells, m.buy, m.buy.Remaining(), env), env);
    } else {
      OptimisticKeepsTerms(m, env);
    }
  }

  /** Serve the buys from position `i` on, in order. */
  function Run(c: Cycle, i: nat, env: Env, naive: bool): Cycle
    requires i <= |c.buys| && Runnable(c.buys, env)
    decreases |c.buys| - i
  {
    if i == |c.buys| then c
    else
      ServeKeepsTerms(c.MarketOf(i), env, naive);
      Run(c.After(i, Serve(c.MarketOf(i), env, naive)), i + 1, env, naive)
  }

  function Start(buys: seq<FastOrder>, sells: seq<FastOrder>): Cycle { Cycle(RankBuys(buys), sells, map[], []) }

  /** The whole cycle. */
  function CycleOutcome(buys: seq<FastOrder>, sells: seq<FastOrder>, env: Env, naive: bool): Cycle
    requires Runnable(RankBuys(buys), env)
  {
    Run(Start(buys, sells), 0, env.(multiplier := GuardMultiplier(env.multiplier)), naive)
  }
}
