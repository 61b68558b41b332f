/** What a zone's clearing guarantees: individual rationality at one price, price-time
    priority, bookkeeping, and a volume no single price can beat. */
module AuctionTheorems {
  import opened Options
  import opened FastPrices
  import opened Words
  import opened Orders
  import opened Ordering
  import opened CdaSpec
  import opened CdaSafety
  import opened AuctionSpec

  ghost predicate Distinct(ix: seq<nat>) {
    forall a, b :: 0 <= a < b < |ix| ==> ix[a] != ix[b]
  }

  /** A zone ready to clear: distinct tradeable orders in priority order. */
  ghost predicate ZoneReady(s: Sweep, bi: seq<nat>, si: seq<nat>) {
    && Within(bi, |s.buys|) && Within(si, |s.sells|) && Distinct(bi) && Distinct(si)
    && (forall a :: 0 <= a < |bi| ==> s.buys[bi[a]].Remaining() >= MIN_TRADE_AMOUNT)
    && (forall a :: 0 <= a < |si| ==> s.sells[si[a]].Remaining() >= MIN_TRADE_AMOUNT)
    && (forall a, b :: 0 <= a <= b < |bi| ==> s.buys[bi[a]].price >= s.buys[bi[b]].price)
    && (forall a, b :: 0 <= a <= b < |si| ==> s.sells[si[a]].price <= s.sells[si[b]].price)
  }

  /** No user's own bid reaches their own ask, so the sweep never skips a sell as a self-trade. A
      user may be on both sides, as with an ordinary two-sided quote. */
  ghost predicate NoSelfCross(s: Sweep, bi: seq<nat>, si: seq<nat>)
    requires Within(bi, |s.buys|) && Within(si, |s.sells|)
  {
    forall a, b :: 0 <= a < |bi| && 0 <= b < |si| && s.buys[bi[a]].userId == s.sells[si[b]].userId
      ==> s.buys[bi[a]].price < s.sells[si[b]].price
  }

  // ---------- Where the sweep stands ----------

  /** Each listed order is filled within its size, orders behind the pointers are used up, and
      those ahead untouched. Supply may be passed over unused only for a self-trade. */
  ghost predicate PlaceOk(s0: Sweep, s: Sweep, bi: seq<nat>, si: seq<nat>, i: nat, j: nat)
    requires Within(bi, |s0.buys|) && Within(si, |s0.sells|)
  {
    && |s.buys| == |s0.buys| && |s.sells| == |s0.sells| && i <= |bi| && j <= |si|
    && (forall k :: 0 <= k < |s.buys| ==> FilledWithin(s0.buys[k], s.buys[k]))
    && (forall k :: 0 <= k < |s.sells| ==> FilledWithin(s0.sells[k], s.sells[k]))
    && (forall a :: 0 <= a < i ==> s.buys[bi[a]].Remaining() < MIN_TRADE_AMOUNT)
    && (forall a :: i < a < |bi| ==> s.buys[bi[a]] == s0.buys[bi[a]])
    && (NoSelfCross(s0, bi, si) ==> forall a :: 0 <= a < j ==> s.sells[si[a]].Remaining() < MIN_TRADE_AMOUNT)
    && (forall a :: j < a < |si| ==> s.sells[si[a]] == s0.sells[si[a]])
  }

  /** One fill is between different users, at an ask no higher than the bid. */
  ghost predicate FillOk(f: Fill, s0: Sweep, bi: seq<nat>, si: seq<nat>) {
    && f.buy in bi && f.sell in si && f.buy < |s0.buys| && f.sell < |s0.sells| && f.amount >= MIN_TRADE_AMOUNT
    && s0.buys[f.buy].userId != s0.sells[f.sell].userId
    && s0.sells[f.sell].price <= s0.buys[f.buy].price
  }

  /** The marginal pair bounds every fill so far, and every order still ahead is no better. */
  ghost predicate MarginOk(s0: Sweep, s: Sweep, bi: seq<nat>, si: seq<nat>, i: nat, j: nat)
    requires Within(bi, |s0.buys|) && Within(si, |s0.sells|)
  {
    && |s.buys| == |s0.buys| && |s.sells| == |s0.sells|
    && (forall k :: 0 <= k < |s.fills| ==> FillOk(s.fills[k], s0, bi, si))
    && (s.marginal.None? <==> s.fills == [])
    && (s.marginal.None? ==> s.buys == s0.buys && s.sells == s0.sells)
    && (s.marginal.Some? ==>
          var m := s.marginal.value;
          && m.ask <= m.bid
          && (forall k :: 0 <= k < |s.fills| ==>
                m.bid <= s0.buys[s.fills[k].buy].price && s0.sells[s.fills[k].sell].price <= m.ask)
          && (forall a :: i <= a < |bi| ==> s0.buys[bi[a]].price <= m.bid)
          && (forall a :: j <= a < |si| ==> m.ask <= s0.sells[si[a]].price)
          && (forall k :: 0 <= k < |s.buys| && s.buys[k] != s0.buys[k] ==> m.bid <= s0.buys[k].price)
          && (forall k :: 0 <= k < |s.sells| && s.sells[k] != s0.sells[k] ==> s0.sells[k].price <= m.ask))
  }

  /** The sweep cannot go on. */
  predicate Stopped(s: Sweep, bi: seq<nat>, si: seq<nat>, i: nat, j: nat)
    requires Within(bi, |s.buys|) && Within(si, |s.sells|)
  {
    i >= |bi| || j >= |si| || s.buys[bi[i]].price < s.sells[si[j]].price
  }

  lemma TradePlace(s0: Sweep, s: Sweep, bi: seq<nat>, si: seq<nat>, i: nat, j: nat)
    requires ZoneReady(s0, bi, si) && PlaceOk(s0, s, bi, si, i, j) && i < |bi| && j < |si|
    requires s.buys[bi[i]].Remaining() >= MIN_TRADE_AMOUNT && s.sells[si[j]].Remaining() >= MIN_TRADE_AMOUNT
    ensures var t := Trade(s, bi[i], si[j]);
      PlaceOk(s0, t, bi, si, if t.buys[bi[i]].Remaining() < MIN_TRADE_AMOUNT then i + 1 else i,
              if t.sells[si[j]].Remaining() < MIN_TRADE_AMOUNT then j + 1 else j)
  {
  }

  lemma TradeMargin(s0: Sweep, s: Sweep, bi: seq<nat>, si: seq<nat>, i: nat, j: nat, i': nat, j': nat)
    requires ZoneReady(s0, bi, si) && MarginOk(s0, s, bi, si, i, j) && i < |bi| && j < |si| && i <= i' && j <= j'
    requires s.buys[bi[i]].SameTerms(s0.buys[bi[i]]) && s.sells[si[j]].SameTerms(s0.sells[si[j]])
    requires s.buys[bi[i]].Remaining() >= MIN_TRADE_AMOUNT && s.sells[si[j]].Remaining() >= MIN_TRADE_AMOUNT
    requires s.buys[bi[i]].price >= s.sells[si[j]].price && s.buys[bi[i]].userId != s.sells[si[j]].userId
    ensures MarginOk(s0, Trade(s, bi[i], si[j]), bi, si, i', j')
  {
    var t := Trade(s, bi[i], si[j]);
    forall k | 0 <= k < |t.fills|
      ensures FillOk(t.fills[k], s0, bi, si)
      ensures t.marginal.value.bid <= s0.buys[t.fills[k].buy].price && s0.sells[t.fills[k].sell].price <= t.marginal.value.ask
    {
      if k < |s.fills| {
        assert t.fills[k] == s.fills[k] && FillOk(s.fills[k], s0, bi, si);
        assert s0.buys[bi[i]].price <= s.marginal.value.bid;
      }
    }
  }

  ghost predicate SweepOk(s0: Sweep, s: Sweep, bi: seq<nat>, si: seq<nat>, i: nat, j: nat)
    requires Within(bi, |s0.buys|) && Within(si, |s0.sells|)
  {
    PlaceOk(s0, s, bi, si, i, j) && MarginOk(s0, s, bi, si, i, j)
  }

  lemma SweepOkShape(s0: Sweep, s: Sweep, bi: seq<nat>, si: seq<nat>, i: nat, j: nat)
    requires Within(bi, |s0.buys|) && Within(si, |s0.sells|) && SweepOk(s0, s, bi, si, i, j)
    ensures |s.buys| == |s0.buys| && |s.sells| == |s0.sells| && i <= |bi| && j <= |si|
    ensures forall k :: 0 <= k < |s.buys| ==> s.buys[k].SameTerms(s0.buys[k])
    ensures forall k :: 0 <= k < |s.sells| ==> s.sells[k].SameTerms(s0.sells[k])
  {
  }

  lemma TradeOk(s0: Sweep, s: Sweep, bi: seq<nat>, si: seq<nat>, i: nat, j: nat)
    requires ZoneReady(s0, bi, si) && SweepOk(s0, s, bi, si, i, j) && i < |bi| && j < |si|
    requires s.buys[bi[i]].Remaining() >= MIN_TRADE_AMOUNT && s.sells[si[j]].Remaining() >= MIN_TRADE_AMOUNT
    requires s.buys[bi[i]].price >= s.sells[si[j]].price && s.buys[bi[i]].userId != s.sells[si[j]].userId
    ensures var t := Trade(s, bi[i], si[j]);
      SweepOk(s0, t, bi, si, if t.buys[bi[i]].Remaining() < MIN_TRADE_AMOUNT then i + 1 else i,
              if t.sells[si[j]].Remaining() < MIN_TRADE_AMOUNT then j + 1 else j)
  {
    hide PlaceOk, MarginOk;
    SweepOkShape(s0, s, bi, si, i, j);
    var t := Trade(s, bi[i], si[j]);
    TradePlace(s0, s, bi, si, i, j);
    TradeMargin(s0, s, bi, si, i, j, if t.buys[bi[i]].Remaining() < MIN_TRADE_AMOUNT then i + 1 else i,
                if t.sells[si[j]].Remaining() < MIN_TRADE_AMOUNT then j + 1 else j);
  }

  /** Moving past a used-up buy, or past a sell that is used up or the buyer's own. */
  lemma SkipOk(s0: Sweep, s: Sweep, bi: seq<nat>, si: seq<nat>, i: nat, j: nat)
    requires ZoneReady(s0, bi, si) && SweepOk(s0, s, bi, si, i, j) && i < |bi| && j < |si|
    requires s.buys[bi[i]].price >= s.sells[si[j]].price
    ensures s.buys[bi[i]].Remaining() < MIN_TRADE_AMOUNT ==> SweepOk(s0, s, bi, si, i + 1, j)
    ensures s.sells[si[j]].Remaining() < MIN_TRADE_AMOUNT || s.buys[bi[i]].userId == s.sells[si[j]].userId
      ==> SweepOk(s0, s, bi, si, i, j + 1)
  {
  }

  /** The sweep ends where it can no longer go on, with everything in place. */
  lemma {:induction false} SweepEnds(s0: Sweep, s: Sweep, bi: seq<nat>, si: seq<nat>, i: nat, j: nat) returns (i': nat, j': nat)
    requires ZoneReady(s0, bi, si) && SweepOk(s0, s, bi, si, i, j)
    ensures var r := SweepFrom(s, bi, si, i, j);
      SweepOk(s0, r, bi, si, i', j') && Within(bi, |r.buys|) && Within(si, |r.sells|) && Stopped(r, bi, si, i', j')
    decreases |bi| - i + |si| - j
  {
    hide SweepOk;
    SweepOkShape(s0, s, bi, si, i, j);
    i', j' := i, j;
    if i < |bi| && j < |si| && s.buys[bi[i]].price >= s.sells[si[j]].price {
      SkipOk(s0, s, bi, si, i, j);
      var buy, sell := s.buys[bi[i]], s.sells[si[j]];
      if buy.userId == sell.userId {
        i', j' := SweepEnds(s0, s, bi, si, i, j + 1);
      } else if buy.Remaining() < MIN_TRADE_AMOUNT {
        i', j' := SweepEnds(s0, s, bi, si, i + 1, j);
      } else if sell.Remaining() < MIN_TRADE_AMOUNT {
        i', j' := SweepEnds(s0, s, bi, si, i, j + 1);
      } else {
        TradeOk(s0, s, bi, si, i, j);
        var t := Trade(s, bi[i], si[j]);
        i', j' := SweepEnds(s0, t, bi, si, if t.buys[bi[i]].Remaining() < MIN_TRADE_AMOUNT then i + 1 else i,
                            if t.sells[si[j]].Remaining() < MIN_TRADE_AMOUNT then j + 1 else j);
      }
    }
  }

  // ---------- Bookkeeping ----------

  function FillVolume(fills: seq<Fill>): int {
    if fills == [] then 0 else FillVolume(fills[..|fills| - 1]) + fills[|fills| - 1].amount
  }

  /** Energy filled on order `k` of one side. */
  function FilledOn(fills: seq<Fill>, k: nat, demand: bool): int {
    if fills == [] then 0
    else
      var last := fills[|fills| - 1];
      FilledOn(fills[..|fills| - 1], k, demand) + (if (if demand then last.buy else last.sell) == k then last.amount else 0)
  }

  /** How far the listed orders' fills advanced. */
  function Advanced(before: seq<FastOrder>, after: seq<FastOrder>, ix: seq<nat>): int
    requires Within(ix, |before|) && |after| == |before|
  {
    if ix == [] then 0
    else
      var k := ix[|ix| - 1];
      Advanced(before, after, ix[..|ix| - 1]) + after[k].filledAmount - before[k].filledAmount
  }

  lemma {:induction false} AdvancedStep(before: seq<FastOrder>, after: seq<FastOrder>, ix: seq<nat>, k: nat, amount: int)
    requires Within(ix, |before|) && |after| == |before| && Distinct(ix) && k < |before|
    ensures Advanced(before, after[k := after[k].Fill(amount)], ix)
         == Advanced(before, after, ix) + if k in ix then amount else 0
    decreases |ix|
  {
    if ix != [] {
      var n := |ix| - 1;
      AdvancedStep(before, after, ix[..n], k, amount);
      assert ix == ix[..n] + [ix[n]];
    }
  }

  lemma {:induction false} AdvancedNone(orders: seq<FastOrder>, ix: seq<nat>)
    requires Within(ix, |orders|)
    ensures Advanced(orders, orders, ix) == 0
    decreases |ix|
  {
    if ix != [] {
      AdvancedNone(orders, ix[..|ix| - 1]);
    }
  }

  /** The fills account for every advance, order by order and in total. */
  ghost predicate SumsOk(s0: Sweep, s: Sweep, bi: seq<nat>, si: seq<nat>)
    requires Within(bi, |s0.buys|) && Within(si, |s0.sells|)
  {
    && |s.buys| == |s0.buys| && |s.sells| == |s0.sells|
    && FillVolume(s.fills) == Advanced(s0.buys, s.buys, bi) == Advanced(s0.sells, s.sells, si)
    && (forall k :: 0 <= k < |s.buys| ==> s.buys[k].filledAmount - s0.buys[k].filledAmount == FilledOn(s.fills, k, true))
    && (forall k :: 0 <= k < |s.sells| ==> s.sells[k].filledAmount - s0.sells[k].filledAmount == FilledOn(s.fills, k, false))
  }

  lemma TradeSums(s0: Sweep, s: Sweep, bi: seq<nat>, si: seq<nat>, b: nat, a: nat)
    requires Within(bi, |s0.buys|) && Within(si, |s0.sells|) && Distinct(bi) && Distinct(si) && b in bi && a in si
    requires SumsOk(s0, s, bi, si) && b < |s.buys| && a < |s.sells|
    ensures SumsOk(s0, Trade(s, b, a), bi, si)
  {
    var t := Trade(s, b, a);
    var f := t.fills[|s.fills|];
    assert t.fills[..|s.fills|] == s.fills;
    AdvancedStep(s0.buys, s.buys, bi, b, f.amount);
    AdvancedStep(s0.sells, s.sells, si, a, f.amount);
  }

  lemma {:induction false} SweepSums(s0: Sweep, s: Sweep, bi: seq<nat>, si: seq<nat>, i: nat, j: nat)
    requires Within(bi, |s0.buys|) && Within(si, |s0.sells|) && Distinct(bi) && Distinct(si)
    requires SumsOk(s0, s, bi, si) && i <= |bi| && j <= |si|
    ensures SumsOk(s0, SweepFrom(s, bi, si, i, j), bi, si)
    decreases |bi| - i + |si| - j
  {
    hide Advanced, FillVolume, FilledOn;
    if i < |bi| && j < |si| && s.buys[bi[i]].price >= s.sells[si[j]].price {
      var buy, sell := s.buys[bi[i]], s.sells[si[j]];
      if buy.userId == sell.userId {
        SweepSums(s0, s, bi, si, i, j + 1);
      } else if buy.Remaining() < MIN_TRADE_AMOUNT {
        SweepSums(s0, s, bi, si, i + 1, j);
      } else if sell.Remaining() < MIN_TRADE_AMOUNT {
        SweepSums(s0, s, bi, si, i, j + 1);
      } else {
        TradeSums(s0, s, bi, si, bi[i], si[j]);
        var t := Trade(s, bi[i], si[j]);
        SweepSums(s0, t, bi, si, if t.buys[bi[i]].Remaining() < MIN_TRADE_AMOUNT then i + 1 else i,
                  if t.sells[si[j]].Remaining() < MIN_TRADE_AMOUNT then j + 1 else j);
      }
    }
  }

  // ---------- Volume against any single price ----------

  /** A buy bids at least `p`, a sell asks at most `p`. */
  predicate Accepts(o: FastOrder, p: int, demand: bool) { if demand then o.price >= p else o.price <= p }

  /** Energy one side would trade at price `p`. */
  function Wanted(orders: seq<FastOrder>, ix: seq<nat>, p: int, demand: bool): int
    requires Within(ix, |orders|)
  {
    if ix == [] then 0
    else
      var o := orders[ix[|ix| - 1]];
      Wanted(orders, ix[..|ix| - 1], p, demand) + (if Accepts(o, p, demand) then o.Remaining() else 0)
  }

  /** When everyone who accepts `p` is used up, the side traded all it wanted at `p`, up to
      one minimum trade per order; exactly all of it when nothing is left over. */
  lemma {:induction false} UsedUpCovers(before: seq<FastOrder>, after: seq<FastOrder>, ix: seq<nat>, p: int, demand: bool)
    requires Within(ix, |before|) && |after| == |before|
    requires forall k :: 0 <= k < |before| ==> FilledWithin(before[k], after[k])
    requires forall a :: 0 <= a < |ix| && Accepts(before[ix[a]], p, demand) ==> after[ix[a]].Remaining() < MIN_TRADE_AMOUNT
    ensures Advanced(before, after, ix) >= Wanted(before, ix, p, demand) - |ix| * MIN_TRADE_AMOUNT
    ensures (forall a :: 0 <= a < |ix| && Accepts(before[ix[a]], p, demand) ==> after[ix[a]].Remaining() <= 0)
      ==> Advanced(before, after, ix) >= Wanted(before, ix, p, demand)
    decreases |ix|
  {
    if ix != [] {
      UsedUpCovers(before, after, ix[..|ix| - 1], p, demand);
      assert forall a :: 0 <= a < |ix| - 1 ==> ix[..|ix| - 1][a] == ix[a];
    }
  }

  /** When nobody who refuses `p` traded, the side traded no more than it wanted at `p`. */
  lemma {:induction false} OnlyAcceptorsTraded(before: seq<FastOrder>, after: seq<FastOrder>, ix: seq<nat>, p: int, demand: bool)
    requires Within(ix, |before|) && |after| == |before|
    requires forall k :: 0 <= k < |before| ==> FilledWithin(before[k], after[k])
    requires forall a :: 0 <= a < |ix| ==> before[ix[a]].Remaining() >= 0
    requires forall a :: 0 <= a < |ix| && !Accepts(before[ix[a]], p, demand) ==> after[ix[a]] == before[ix[a]]
    ensures Advanced(before, after, ix) <= Wanted(before, ix, p, demand)
    decreases |ix|
  {
    if ix != [] {
      OnlyAcceptorsTraded(before, after, ix[..|ix| - 1], p, demand);
    }
  }

  /** Remaining amounts of the listed orders are whole multiples of the minimum trade. */
  ghost predicate WholeUnits(s: Sweep, bi: seq<nat>, si: seq<nat>)
    requires Within(bi, |s.buys|) && Within(si, |s.sells|)
  {
    && (forall a :: 0 <= a < |bi| ==> s.buys[bi[a]].Remaining() % MIN_TRADE_AMOUNT == 0)
    && (forall a :: 0 <= a < |si| ==> s.sells[si[a]].Remaining() % MIN_TRADE_AMOUNT == 0)
  }

  lemma TradeWholeUnits(s: Sweep, bi: seq<nat>, si: seq<nat>, i: nat, j: nat)
    requires Within(bi, |s.buys|) && Within(si, |s.sells|) && WholeUnits(s, bi, si) && i < |bi| && j < |si|
    ensures WholeUnits(Trade(s, bi[i], si[j]), bi, si)
  {
    var t := Trade(s, bi[i], si[j]);
    UnitsDiffer(s.buys[bi[i]].Remaining(), s.sells[si[j]].Remaining());
    assert t.buys[bi[i]].Remaining() % MIN_TRADE_AMOUNT == 0;
    assert t.sells[si[j]].Remaining() % MIN_TRADE_AMOUNT == 0;
    assert forall k :: 0 <= k < |t.buys| ==> t.buys[k] == s.buys[k] || k == bi[i];
    assert forall k :: 0 <= k < |t.sells| ==> t.sells[k] == s.sells[k] || k == si[j];
  }

  lemma UnitsDiffer(x: int, y: int)
    requires x % MIN_TRADE_AMOUNT == 0 && y % MIN_TRADE_AMOUNT == 0
    ensures (x - Min(x, y)) % MIN_TRADE_AMOUNT == 0 && (y - Min(x, y)) % MIN_TRADE_AMOUNT == 0
  {
    var a, b := x / MIN_TRADE_AMOUNT, y / MIN_TRADE_AMOUNT;
    assert x == a * MIN_TRADE_AMOUNT && y == b * MIN_TRADE_AMOUNT;
    assert x - y == (a - b) * MIN_TRADE_AMOUNT;
    assert y - x == (b - a) * MIN_TRADE_AMOUNT;
  }

  lemma {:induction false} SweepWholeUnits(s: Sweep, bi: seq<nat>, si: seq<nat>, i: nat, j: nat)
    requires Within(bi, |s.buys|) && Within(si, |s.sells|) && WholeUnits(s, bi, si) && i <= |bi| && j <= |si|
    ensures var r := SweepFrom(s, bi, si, i, j);
      |r.buys| == |s.buys| && |r.sells| == |s.sells| && WholeUnits(r, bi, si)
    decreases |bi| - i + |si| - j
  {
    hide WholeUnits;
    if i < |bi| && j < |si| && s.buys[bi[i]].price >= s.sells[si[j]].price {
      var buy, sell := s.buys[bi[i]], s.sells[si[j]];
      if buy.userId == sell.userId {
        SweepWholeUnits(s, bi, si, i, j + 1);
      } else if buy.Remaining() < MIN_TRADE_AMOUNT {
        SweepWholeUnits(s, bi, si, i + 1, j);
      } else if sell.Remaining() < MIN_TRADE_AMOUNT {
        SweepWholeUnits(s, bi, si, i, j + 1);
      } else {
        TradeWholeUnits(s, bi, si, i, j);
        var t := Trade(s, bi[i], si[j]);
        SweepWholeUnits(t, bi, si, if t.buys[bi[i]].Remaining() < MIN_TRADE_AMOUNT then i + 1 else i,
                        if t.sells[si[j]].Remaining() < MIN_TRADE_AMOUNT then j + 1 else j);
      }
    }
  }

  // ---------- One zone, from its unsorted index lists ----------

  /** Distinct, tradeable orders on each side, with unique ids. */
  ghost predicate ZoneLists(buyIx: seq<nat>, sellIx: seq<nat>, buys: seq<FastOrder>, sells: seq<FastOrder>) {
    && UniqueIds(buys) && UniqueIds(sells)
    && Within(buyIx, |buys|) && Within(sellIx, |sells|) && Distinct(buyIx) && Distinct(sellIx)
    && (forall a :: 0 <= a < |buyIx| ==> buys[buyIx[a]].Remaining() >= MIN_TRADE_AMOUNT)
    && (forall a :: 0 <= a < |sellIx| ==> sells[sellIx[a]].Remaining() >= MIN_TRADE_AMOUNT)
  }

  lemma {:induction false} RankEntriesSorted(ix: seq<nat>, orders: seq<FastOrder>, demand: bool)
    requires Within(ix, |orders|) && Distinct(ix) && UniqueIds(orders)
    ensures StrictlySorted(RankEntries(ix, orders, demand), EntryKey)
  {
    if ix != [] {
      var n := |ix| - 1;
      var rest := RankEntries(ix[..n], orders, demand);
      var last := Entry(Priority(orders[ix[n]], demand), ix[n]);
      RankEntriesSorted(ix[..n], orders, demand);
      forall k | 0 <= k < |rest| ensures EntryKey(rest[k]) != EntryKey(last) {
        RankEntriesOf(ix[..n], orders, demand, rest[k]);
        assert orders[rest[k].idx].id != orders[ix[n]].id;
      }
      InsertSorted(rest, last, EntryKey);
    }
  }

  /** In the ranked list, position follows priority. */
  lemma RankedOrder(ix: seq<nat>, orders: seq<FastOrder>, demand: bool, a: nat, b: nat)
    requires Within(ix, |orders|) && Distinct(ix) && UniqueIds(orders) && a < b < |ix|
    ensures Within(InPriority(ix, orders, demand), |orders|)
    ensures var r := InPriority(ix, orders, demand);
      r[a] != r[b] && Priority(orders[r[a]], demand).Less(Priority(orders[r[b]], demand))
  {
    var es := RankEntries(ix, orders, demand);
    RankedWithin(ix, orders, demand);
    RankEntriesSorted(ix, orders, demand);
    RankEntriesOf(ix, orders, demand, es[a]);
    RankEntriesOf(ix, orders, demand, es[b]);
    assert EntryKey(es[a]).Less(EntryKey(es[b]));
  }

  lemma RankedHas(ix: seq<nat>, orders: seq<FastOrder>, demand: bool, k: nat)
    requires Within(ix, |orders|) && k in ix
    ensures k in InPriority(ix, orders, demand)
  {
    var e := Entry(Priority(orders[k], demand), k);
    RankEntriesOf(ix, orders, demand, e);
    var a :| 0 <= a < |RankEntries(ix, orders, demand)| && RankEntries(ix, orders, demand)[a] == e;
    assert InPriority(ix, orders, demand)[a] == k;
  }

  lemma RankedReady(buyIx: seq<nat>, sellIx: seq<nat>, buys: seq<FastOrder>, sells: seq<FastOrder>)
    requires ZoneLists(buyIx, sellIx, buys, sells)
    ensures ZoneReady(Sweep(buys, sells, [], None), InPriority(buyIx, buys, true), InPriority(sellIx, sells, false))
  {
    var bi, si := InPriority(buyIx, buys, true), InPriority(sellIx, sells, false);
    RankedWithin(buyIx, buys, true);
    RankedWithin(sellIx, sells, false);
    forall a, b | 0 <= a < b < |bi| ensures bi[a] != bi[b] && buys[bi[a]].price >= buys[bi[b]].price {
      RankedOrder(buyIx, buys, true, a, b);
    }
    forall a, b | 0 <= a < b < |si| ensures si[a] != si[b] && sells[si[a]].price <= sells[si[b]].price {
      RankedOrder(sellIx, sells, false, a, b);
    }
  }

  lemma {:induction false} WantedCons(orders: seq<FastOrder>, k: nat, ix: seq<nat>, p: int, demand: bool)
    requires Within(ix, |orders|) && k < |orders|
    ensures Wanted(orders, [k] + ix, p, demand)
         == Wanted(orders, ix, p, demand) + (if Accepts(orders[k], p, demand) then orders[k].Remaining() else 0)
    decreases |ix|
  {
    if ix == [] {
      assert [k] + ix == [k];
      assert [k][..0] == [];
    } else {
      var n := |ix| - 1;
      WantedCons(orders, k, ix[..n], p, demand);
      assert ([k] + ix)[..n + 1] == [k] + ix[..n];
    }
  }

  lemma {:induction false} WantedInsert(orders: seq<FastOrder>, es: seq<Entry>, e: Entry, p: int, demand: bool)
    requires Within(Indices(es), |orders|) && e.idx < |orders|
    ensures Within(Indices(Insert(es, e, EntryKey)), |orders|)
    ensures Wanted(orders, Indices(Insert(es, e, EntryKey)), p, demand)
         == Wanted(orders, Indices(es), p, demand)
            + (if Accepts(orders[e.idx], p, demand) then orders[e.idx].Remaining() else 0)
    decreases |es|
  {
    hide Wanted, Accepts;
    if es == [] || EntryKey(e).Less(EntryKey(es[0])) {
      assert Insert(es, e, EntryKey) == [e] + es;
      IndicesCons(e, es);
      WantedCons(orders, e.idx, Indices(es), p, demand);
    } else {
      var rest := Insert(es[1..], e, EntryKey);
      assert Insert(es, e, EntryKey) == [es[0]] + rest;
      assert es == [es[0]] + es[1..];
      IndicesCons(es[0], es[1..]);
      IndicesCons(es[0], rest);
      WithinCons(es[0].idx, Indices(es[1..]), |orders|);
      WantedInsert(orders, es[1..], e, p, demand);
      WantedCons(orders, es[0].idx, Indices(es[1..]), p, demand);
      WantedCons(orders, es[0].idx, Indices(rest), p, demand);
    }
  }

  lemma IndicesCons(e: Entry, es: seq<Entry>)
    ensures Indices([e] + es) == [e.idx] + Indices(es)
  {
  }

  lemma WithinCons(k: nat, ix: seq<nat>, n: nat)
    requires Within([k] + ix, n)
    ensures k < n && Within(ix, n)
  {
    assert ([k] + ix)[0] == k;
    assert forall a :: 0 <= a < |ix| ==> ix[a] == ([k] + ix)[a + 1];
  }

  /** What a side wants at a price does not depend on how its orders are listed. */
  lemma {:induction false} WantedRanked(ix: seq<nat>, orders: seq<FastOrder>, p: int, demand: bool)
    requires Within(ix, |orders|)
    ensures Within(InPriority(ix, orders, demand), |orders|)
    ensures Wanted(orders, InPriority(ix, orders, demand), p, demand) == Wanted(orders, ix, p, demand)
    decreases |ix|
  {
    RankedWithin(ix, orders, demand);
    if ix != [] {
      var n := |ix| - 1;
      WantedRanked(ix[..n], orders, p, demand);
      WantedInsert(orders, RankEntries(ix[..n], orders, demand), Entry(Priority(orders[ix[n]], demand), ix[n]), p, demand);
    }
  }

  /** Everything the sweep of a zone establishes, at the place where it stops. */
  lemma ZoneSwept(buyIx: seq<nat>, sellIx: seq<nat>, buys: seq<FastOrder>, sells: seq<FastOrder>) returns (i: nat, j: nat)
    requires ZoneLists(buyIx, sellIx, buys, sells)
    ensures var s0, r := Sweep(buys, sells, [], None), ClearZone(buyIx, sellIx, buys, sells);
      var bi, si := InPriority(buyIx, buys, true), InPriority(sellIx, sells, false);
      && ZoneReady(s0, bi, si) && SweepOk(s0, r, bi, si, i, j) && SumsOk(s0, r, bi, si)
      && Within(bi, |r.buys|) && Within(si, |r.sells|) && Stopped(r, bi, si, i, j)
  {
    var s0 := Sweep(buys, sells, [], None);
    var bi, si := InPriority(buyIx, buys, true), InPriority(sellIx, sells, false);
    RankedReady(buyIx, sellIx, buys, sells);
    hide InPriority, SweepFrom, UniqueIds;
    SweepStarts(s0, bi, si);
    hide ZoneReady, SweepOk, SumsOk;
    SweepReadyIs(s0, bi, si);
    SweepSums(s0, s0, bi, si, 0, 0);
    i, j := SweepEnds(s0, s0, bi, si, 0, 0);
  }

  lemma SweepReadyIs(s: Sweep, bi: seq<nat>, si: seq<nat>)
    requires ZoneReady(s, bi, si)
    ensures Within(bi, |s.buys|) && Within(si, |s.sells|) && Distinct(bi) && Distinct(si)
  {
  }

  lemma SweepStarts(s: Sweep, bi: seq<nat>, si: seq<nat>)
    requires ZoneReady(s, bi, si) && s.fills == [] && s.marginal == None
    ensures SweepOk(s, s, bi, si, 0, 0) && SumsOk(s, s, bi, si)
  {
    AdvancedNone(s.buys, bi);
    AdvancedNone(s.sells, si);
  }

  /** The cleared volume is the most any single price allows: for every price it is at least
      what demand or supply wants there, short of it by less than one minimum trade per order,
      and not short at all when amounts are whole units; at the clearing price it exceeds
      neither side. */
  lemma ZoneVolumeIsOptimal(buyIx: seq<nat>, sellIx: seq<nat>, buys: seq<FastOrder>, sells: seq<FastOrder>, p: int)
    requires ZoneLists(buyIx, sellIx, buys, sells)
    requires NoSelfCross(Sweep(buys, sells, [], None), buyIx, sellIx)
    ensures var r := ClearZone(buyIx, sellIx, buys, sells);
      var volume := FillVolume(r.fills);
      && (|| volume >= Wanted(buys, buyIx, p, true) - |buyIx| * MIN_TRADE_AMOUNT
          || volume >= Wanted(sells, sellIx, p, false) - |sellIx| * MIN_TRADE_AMOUNT)
      && (WholeUnits(Sweep(buys, sells, [], None), buyIx, sellIx) ==>
            volume >= Min(Wanted(buys, buyIx, p, true), Wanted(sells, sellIx, p, false)))
      && (r.marginal.Some? ==>
            var price := Midpoint(r.marginal.value.bid, r.marginal.value.ask);
            volume <= Min(Wanted(buys, buyIx, price, true), Wanted(sells, sellIx, price, false)))
  {
    var s0 := Sweep(buys, sells, [], None);
    var r := ClearZone(buyIx, sellIx, buys, sells);
    var bi, si := InPriority(buyIx, buys, true), InPriority(sellIx, sells, false);
    var i, j := ZoneSwept(buyIx, sellIx, buys, sells);
    RankedWithin(buyIx, buys, true);
    RankedWithin(sellIx, sells, false);
    assert NoSelfCross(s0, bi, si);
    WantedRanked(buyIx, buys, p, true);
    WantedRanked(sellIx, sells, p, false);
    VolumeCovers(s0, r, bi, si, i, j, p);
    if WholeUnits(s0, buyIx, sellIx) {
      assert WholeUnits(s0, bi, si);
      SweepWholeUnits(s0, bi, si, 0, 0);
      VolumeCoversExactly(s0, r, bi, si, i, j, p);
    }
    if r.marginal.Some? {
      var price := Midpoint(r.marginal.value.bid, r.marginal.value.ask);
      WantedRanked(buyIx, buys, price, true);
      WantedRanked(sellIx, sells, price, false);
      VolumeWithin(s0, r, bi, si, i, j);
    }
  }

  /** Where the sweep stops, one side has used up everyone who accepts `p`. */
  lemma OneSideUsedUp(s0: Sweep, r: Sweep, bi: seq<nat>, si: seq<nat>, i: nat, j: nat, p: int)
    requires ZoneReady(s0, bi, si) && NoSelfCross(s0, bi, si) && SweepOk(s0, r, bi, si, i, j)
    requires Within(bi, |r.buys|) && Within(si, |r.sells|) && Stopped(r, bi, si, i, j)
    ensures || (forall a :: 0 <= a < |bi| && Accepts(s0.buys[bi[a]], p, true) ==> r.buys[bi[a]].Remaining() < MIN_TRADE_AMOUNT)
            || (forall a :: 0 <= a < |si| && Accepts(s0.sells[si[a]], p, false) ==> r.sells[si[a]].Remaining() < MIN_TRADE_AMOUNT)
  {
    if i < |bi| && j < |si| {
      assert r.buys[bi[i]].price == s0.buys[bi[i]].price && r.sells[si[j]].price == s0.sells[si[j]].price;
    }
  }

  lemma VolumeCovers(s0: Sweep, r: Sweep, bi: seq<nat>, si: seq<nat>, i: nat, j: nat, p: int)
    requires ZoneReady(s0, bi, si) && NoSelfCross(s0, bi, si) && SweepOk(s0, r, bi, si, i, j) && SumsOk(s0, r, bi, si)
    requires Within(bi, |r.buys|) && Within(si, |r.sells|) && Stopped(r, bi, si, i, j)
    ensures || FillVolume(r.fills) >= Wanted(s0.buys, bi, p, true) - |bi| * MIN_TRADE_AMOUNT
            || FillVolume(r.fills) >= Wanted(s0.sells, si, p, false) - |si| * MIN_TRADE_AMOUNT
  {
    hide FillVolume, Wanted, Advanced, FilledOn;
    OneSideUsedUp(s0, r, bi, si, i, j, p);
    if forall a :: 0 <= a < |bi| && Accepts(s0.buys[bi[a]], p, true) ==> r.buys[bi[a]].Remaining() < MIN_TRADE_AMOUNT {
      UsedUpCovers(s0.buys, r.buys, bi, p, true);
    } else {
      UsedUpCovers(s0.sells, r.sells, si, p, false);
    }
  }

  lemma VolumeCoversExactly(s0: Sweep, r: Sweep, bi: seq<nat>, si: seq<nat>, i: nat, j: nat, p: int)
    requires ZoneReady(s0, bi, si) && NoSelfCross(s0, bi, si) && SweepOk(s0, r, bi, si, i, j) && SumsOk(s0, r, bi, si)
    requires Within(bi, |r.buys|) && Within(si, |r.sells|) && Stopped(r, bi, si, i, j)
    requires WholeUnits(r, bi, si)
    ensures FillVolume(r.fills) >= Min(Wanted(s0.buys, bi, p, true), Wanted(s0.sells, si, p, false))
  {
    hide FillVolume, Wanted, Advanced, FilledOn;
    OneSideUsedUp(s0, r, bi, si, i, j, p);
    if forall a :: 0 <= a < |bi| && Accepts(s0.buys[bi[a]], p, true) ==> r.buys[bi[a]].Remaining() < MIN_TRADE_AMOUNT {
      UsedUpCovers(s0.buys, r.buys, bi, p, true);
    } else {
      UsedUpCovers(s0.sells, r.sells, si, p, false);
    }
  }

  lemma VolumeWithin(s0: Sweep, r: Sweep, bi: seq<nat>, si: seq<nat>, i: nat, j: nat)
    requires ZoneReady(s0, bi, si) && SweepOk(s0, r, bi, si, i, j) && SumsOk(s0, r, bi, si) && r.marginal.Some?
    ensures var price := Midpoint(r.marginal.value.bid, r.marginal.value.ask);
      FillVolume(r.fills) <= Min(Wanted(s0.buys, bi, price, true), Wanted(s0.sells, si, price, false))
  {
    hide FillVolume, Wanted, Advanced, FilledOn;
    var price := Midpoint(r.marginal.value.bid, r.marginal.value.ask);
    OnlyAcceptorsTraded(s0.buys, r.buys, bi, price, true);
    OnlyAcceptorsTraded(s0.sells, r.sells, si, price, false);
  }

  /** Every fill of a zone is between different users and settles, at the zone's one price,
      between its own ask and bid. */
  lemma ZoneIsRational(buyIx: seq<nat>, sellIx: seq<nat>, buys: seq<FastOrder>, sells: seq<FastOrder>, k: nat)
    requires ZoneLists(buyIx, sellIx, buys, sells) && k < |ClearZone(buyIx, sellIx, buys, sells).fills|
    ensures var r := ClearZone(buyIx, sellIx, buys, sells);
      && r.marginal.Some? && r.fills[k].buy in buyIx && r.fills[k].sell in sellIx
      && r.fills[k].amount >= MIN_TRADE_AMOUNT
      && buys[r.fills[k].buy].userId != sells[r.fills[k].sell].userId
      && var price := Midpoint(r.marginal.value.bid, r.marginal.value.ask);
         sells[r.fills[k].sell].price <= price <= buys[r.fills[k].buy].price
  {
    var r := ClearZone(buyIx, sellIx, buys, sells);
    var i, j := ZoneSwept(buyIx, sellIx, buys, sells);
    ClearZoneKeeps(buyIx, sellIx, buys, sells);
    assert FillOk(r.fills[k], Sweep(buys, sells, [], None), InPriority(buyIx, buys, true), InPriority(sellIx, sells, false));
    MidpointBetween(r.marginal.value.ask, r.marginal.value.bid);
  }

  /** Price-time priority: a buy trades only if every buy of higher priority in the zone is
      used up; likewise a sell, when no user's own bid reaches their own ask. */
  lemma ZoneKeepsPriority(buyIx: seq<nat>, sellIx: seq<nat>, buys: seq<FastOrder>, sells: seq<FastOrder>)
    requires ZoneLists(buyIx, sellIx, buys, sells)
    ensures var r := ClearZone(buyIx, sellIx, buys, sells);
      && |r.buys| == |buys| && |r.sells| == |sells|
      && (forall x, y :: x in buyIx && y in buyIx && Outbids(buys[x], buys[y]) && r.buys[y] != buys[y]
            ==> r.buys[x].Remaining() < MIN_TRADE_AMOUNT)
      && (NoSelfCross(Sweep(buys, sells, [], None), buyIx, sellIx) ==>
            forall x, y :: x in sellIx && y in sellIx && Undercuts(sells[x], sells[y]) && r.sells[y] != sells[y]
              ==> r.sells[x].Remaining() < MIN_TRADE_AMOUNT)
  {
    hide Priority, Outbids, Undercuts;
    var r := ClearZone(buyIx, sellIx, buys, sells);
    var bi, si := InPriority(buyIx, buys, true), InPriority(sellIx, sells, false);
    var i, j := ZoneSwept(buyIx, sellIx, buys, sells);
    RankedWithin(buyIx, buys, true);
    RankedWithin(sellIx, sells, false);
    forall x, y | x in buyIx && y in buyIx && Outbids(buys[x], buys[y]) && r.buys[y] != buys[y]
      ensures r.buys[x].Remaining() < MIN_TRADE_AMOUNT
    {
      PriorityOutbids(buys[x], buys[y]);
      var a, b := RankedBefore(buyIx, buys, true, x, y);
    }
    if NoSelfCross(Sweep(buys, sells, [], None), buyIx, sellIx) {
      assert NoSelfCross(Sweep(buys, sells, [], None), bi, si);
      forall x, y | x in sellIx && y in sellIx && Undercuts(sells[x], sells[y]) && r.sells[y] != sells[y]
        ensures r.sells[x].Remaining() < MIN_TRADE_AMOUNT
      {
        PriorityUndercuts(sells[x], sells[y]);
        var a, b := RankedBefore(sellIx, sells, false, x, y);
      }
    }
  }

  lemma PriorityOutbids(a: FastOrder, b: FastOrder)
    ensures Priority(a, true).Less(Priority(b, true)) <==> Outbids(a, b)
  {
  }

  lemma PriorityUndercuts(a: FastOrder, b: FastOrder)
    ensures Priority(a, false).Less(Priority(b, false)) <==> Undercuts(a, b)
  {
  }

  lemma RankedBefore(ix: seq<nat>, orders: seq<FastOrder>, demand: bool, x: nat, y: nat) returns (a: nat, b: nat)
    requires Within(ix, |orders|) && Distinct(ix) && UniqueIds(orders) && x in ix && y in ix
    requires Priority(orders[x], demand).Less(Priority(orders[y], demand))
    ensures a < b < |ix| && InPriority(ix, orders, demand)[a] == x && InPriority(ix, orders, demand)[b] == y
  {
    hide Priority;
    RankedHas(ix, orders, demand, x);
    RankedHas(ix, orders, demand, y);
    a :| 0 <= a < |ix| && InPriority(ix, orders, demand)[a] == x;
    b :| 0 <= b < |ix| && InPriority(ix, orders, demand)[b] == y;
    LessOneWay(Priority(orders[x], demand), Priority(orders[y], demand));
    if b < a {
      RankedOrder(ix, orders, demand, b, a);
    }
  }

  lemma LessOneWay(k: Key, l: Key)
    requires k.Less(l)
    ensures !l.Less(k) && k != l
  {
  }

  /** Two buys in priority order are ranked as they stand; so is one sell. */
  lemma RankTwoBuys(own: FastOrder, other: FastOrder)
    requires BuyKey(own).Less(BuyKey(other))
    ensures Within([0, 1], |[own, other]|) && InPriority([0, 1], [own, other], true) == [0, 1]
  {
    var orders := [own, other];
    assert [0, 1][..1] == [0] && [0][..0] == [];
    assert RankEntries([], orders, true) == [];
    assert RankEntries([0], orders, true) == [Entry(BuyKey(own), 0)];
    LessOneWay(BuyKey(own), BuyKey(other));
    var first, second := Entry(BuyKey(own), 0), Entry(BuyKey(other), 1);
    assert Insert([first], second, EntryKey) == [first] + Insert([first][1..], second, EntryKey);
    assert RankEntries([0, 1], orders, true) == Insert([first], second, EntryKey);
    assert RankEntries([0, 1], orders, true) == [Entry(BuyKey(own), 0), Entry(BuyKey(other), 1)];
  }

  lemma RankOneSell(sell: FastOrder)
    ensures Within([0], |[sell]|) && InPriority([0], [sell], false) == [0]
  {
    assert [0][..0] == [];
    assert RankEntries([], [sell], false) == [];
  }

  /** The condition is the branch's own guard: for a sell and two buys that both reach it, of
      which the later is someone else's, the zone clears nothing exactly when the better buy is
      the seller's own. It skips the sell for good, so the other buy finds no supply, although
      both sides want to trade. */
  lemma SelfTradeLosesVolume(own: FastOrder, other: FastOrder, sell: FastOrder)
    requires own.price >= sell.price && other.price >= sell.price && other.userId != sell.userId
    requires BuyKey(own).Less(BuyKey(other))
    requires own.Remaining() >= MIN_TRADE_AMOUNT && other.Remaining() >= MIN_TRADE_AMOUNT && sell.Remaining() >= MIN_TRADE_AMOUNT
    ensures Within([0, 1], |[own, other]|) && Within([0], |[sell]|)
    ensures var r := ClearZone([0, 1], [0], [own, other], [sell]);
      && (FillVolume(r.fills) == 0 <==> own.userId == sell.userId)
      && (own.userId == sell.userId ==> r == Sweep([own, other], [sell], [], None))
    ensures Min(Wanted([own, other], [0, 1], sell.price, true), Wanted([sell], [0], sell.price, false)) >= MIN_TRADE_AMOUNT
  {
    RankTwoBuys(own, other);
    RankOneSell(sell);
    var s := Sweep([own, other], [sell], [], None);
    var bi, si: seq<nat> := [0, 1], [0];
    if own.userId == sell.userId {
      assert SweepFrom(s, bi, si, 0, 1) == s;
      assert FillVolume([]) == 0;
    } else {
      TradesFirst(s, bi, si);
    }
    WantedCons(s.buys, 0, [1], sell.price, true);
    WantedCons(s.buys, 1, [], sell.price, true);
    WantedCons(s.sells, 0, [], sell.price, false);
    assert [0] + [1] == [0, 1] && [1] + [] == [1] && [0] + [] == [0];
  }

  /** A sweep whose first pair trades clears something. */
  lemma TradesFirst(s: Sweep, bi: seq<nat>, si: seq<nat>)
    requires Within(bi, |s.buys|) && Within(si, |s.sells|) && bi != [] && si != [] && s.fills == []
    requires var buy, sell := s.buys[bi[0]], s.sells[si[0]];
      && buy.price >= sell.price && buy.userId != sell.userId
      && buy.Remaining() >= MIN_TRADE_AMOUNT && sell.Remaining() >= MIN_TRADE_AMOUNT
    ensures FillVolume(SweepFrom(s, bi, si, 0, 0).fills) > 0
  {
    var t := Trade(s, bi[0], si[0]);
    assert FillVolume(t.fills) >= MIN_TRADE_AMOUNT by { assert t.fills[..0] == [] && FillVolume([]) == 0; }
    SweepOnlyAdds(t, bi, si, if t.buys[bi[0]].Remaining() < MIN_TRADE_AMOUNT then 1 else 0,
                  if t.sells[si[0]].Remaining() < MIN_TRADE_AMOUNT then 1 else 0);
  }

  lemma {:induction false} SweepOnlyAdds(s: Sweep, bi: seq<nat>, si: seq<nat>, i: nat, j: nat)
    requires Within(bi, |s.buys|) && Within(si, |s.sells|) && i <= |bi| && j <= |si|
    ensures FillVolume(SweepFrom(s, bi, si, i, j).fills) >= FillVolume(s.fills)
    decreases |bi| - i + |si| - j
  {
    if i < |bi| && j < |si| {
      var buy, sell := s.buys[bi[i]], s.sells[si[j]];
      if buy.price < sell.price {
      } else if buy.userId == sell.userId {
        SweepOnlyAdds(s, bi, si, i, j + 1);
      } else if buy.Remaining() < MIN_TRADE_AMOUNT {
        SweepOnlyAdds(s, bi, si, i + 1, j);
      } else if sell.Remaining() < MIN_TRADE_AMOUNT {
        SweepOnlyAdds(s, bi, si, i, j + 1);
      } else {
        var t := Trade(s, bi[i], si[j]);
        assert t.fills[..|s.fills|] == s.fills;
        SweepOnlyAdds(t, bi, si, if t.buys[bi[i]].Remaining() < MIN_TRADE_AMOUNT then i + 1 else i,
                      if t.sells[si[j]].Remaining() < MIN_TRADE_AMOUNT then j + 1 else j);
      }
    }
  }

  /** The matches a zone settles carry exactly the volume of its fills. */
  lemma {:induction false} SettledVolume(fills: seq<Fill>, zone: Zone, price: I64, buys: seq<FastOrder>, sells: seq<FastOrder>,
                                         metadata: seq<OrderMetadata>, topology: Topology)
    requires Settleable(fills, buys, sells, metadata)
    ensures Volume(SettleFills(fills, zone, price, buys, sells, metadata, topology)) == FillVolume(fills)
    decreases |fills|
  {
    if fills != [] {
      var n := |fills| - 1;
      SettledVolume(fills[..n], zone, price, buys, sells, metadata, topology);
      var all := SettleFills(fills, zone, price, buys, sells, metadata, topology);
      assert all[..n] == SettleFills(fills[..n], zone, price, buys, sells, metadata, topology);
    }
  }
}
