/** The matching cycle itself, in place on the two order slices, against `CdaSpec`. */
module CdaEngine {
  import opened Options
  import opened FastPrices
  import opened Words
  import opened Orders
  import opened Ordering
  import opened Pricing
  import opened CdaSpec
  import opened CdaGather

  // ---------- Buy priority ----------

  lemma {:induction false} RankBuysKeeps(buys: seq<FastOrder>, env: Env)
    requires Runnable(buys, env)
    ensures Runnable(RankBuys(buys), env)
  {
    if buys != [] {
      var n := |buys| - 1;
      RankBuysKeeps(buys[..n], env);
      var rest, r := RankBuys(buys[..n]), RankBuys(buys);
      forall i | 0 <= i < |r| ensures r[i].metadataIndex < |env.buyMetadata| {
        InsertMember(rest, buys[n], BuyKey, r[i]);
        assert buys[n] in buys;
      }
    }
  }

  /** The ranking is the same buys, none outranked by a later one. */
  lemma {:induction false} RankBuysInOrder(buys: seq<FastOrder>)
    ensures IsSortOf(RankBuys(buys), buys, BuyKey)
  {
    if buys != [] {
      var n := |buys| - 1;
      RankBuysInOrder(buys[..n]);
      InsertInOrder(RankBuys(buys[..n]), buys[n], BuyKey);
      InsertAdds(RankBuys(buys[..n]), buys[n], BuyKey);
      hide InOrder, BuyKey;
      assert buys == buys[..n] + [buys[n]];
    }
  }

  /** No buy is outbid by a later one, and one with an id of its own outbids every later one. */
  ghost predicate ServedInOrder(buys: seq<FastOrder>) {
    forall i, j :: 0 <= i < j < |buys| ==>
      !Outbids(buys[j], buys[i]) && (buys[i].id != buys[j].id ==> Outbids(buys[i], buys[j]))
  }

  lemma InOrderServes(buys: seq<FastOrder>)
    requires InOrder(buys, BuyKey)
    ensures ServedInOrder(buys)
  {
    hide BuyKey, Outbids;
    forall i, j | 0 <= i < j < |buys|
      ensures !Outbids(buys[j], buys[i]) && (buys[i].id != buys[j].id ==> Outbids(buys[i], buys[j]))
    {
      BuyKeyOutbids(buys[j], buys[i]);
      OutbidsEitherWay(buys[i], buys[j]);
    }
  }

  lemma OutbidsEitherWay(a: FastOrder, b: FastOrder)
    ensures a.id != b.id ==> Outbids(a, b) || Outbids(b, a)
  {
  }

  /** Sort in place: highest bid first, then earliest arrival, then id. The array keeps its buys. */
  method SortBuys(buys: array<FastOrder>)
    modifies buys
    ensures multiset(buys[..]) == multiset(old(buys[..])) && ServedInOrder(buys[..])
    ensures buys[..] == RankBuys(old(buys[..]))
  {
    ghost var start := buys[..];
    for i := 0 to buys.Length
      invariant buys[..i] == RankBuys(start[..i]) && buys[i..] == start[i..]
    {
      assert start[..i + 1][..i] == start[..i];
      InsertBuy(buys, i);
      assert buys[..i + 1] == RankBuys(start[..i + 1]);
    }
    assert start[..buys.Length] == start && buys[..buys.Length] == buys[..];
    RankBuysInOrder(start);
    InOrderServes(RankBuys(start));
  }

  /** Move the buy at `i` to its place among those before it. */
  method InsertBuy(buys: array<FastOrder>, i: nat)
    requires i < buys.Length
    modifies buys
    ensures buys[..i + 1] == Insert(old(buys[..i]), old(buys[i]), BuyKey) && buys[i + 1..] == old(buys[i + 1..])
  {
    hide BuyKey;
    var j := 0;
    while j < i && !BuyKey(buys[i]).Less(BuyKey(buys[j]))
      invariant 0 <= j <= i
      invariant forall k :: 0 <= k < j ==> !BuyKey(buys[i]).Less(BuyKey(buys[k]))
    {
      j := j + 1;
    }
    InsertAt(buys[..i], buys[i], BuyKey, j);
    hide Insert;
    ghost var before := buys[..];
    MoveDown(buys, j, i);
    MovedParts(before, buys[..], j, i);
    assert before[..i] == old(buys[..i]) && before[..i][..j] == before[..j] && before[..i][j..] == before[j..i];
  }

  /** `after` is `before` with the element at `i` moved down to `j`. */
  ghost predicate Moved(before: seq<FastOrder>, after: seq<FastOrder>, j: nat, i: nat)
    requires j <= i < |before|
  {
    && |after| == |before|
    && after[j] == before[i]
    && (forall x :: 0 <= x < j || i < x < |before| ==> after[x] == before[x])
    && (forall x :: j < x <= i ==> after[x] == before[x - 1])
  }

  lemma MovedParts(before: seq<FastOrder>, after: seq<FastOrder>, j: nat, i: nat)
    requires j <= i < |before| && Moved(before, after, j, i)
    ensures after[..i + 1] == before[..j] + [before[i]] + before[j..i] && after[i + 1..] == before[i + 1..]
  {
    var want := before[..j] + [before[i]] + before[j..i];
    forall x | 0 <= x < i + 1 ensures after[x] == want[x] {
    }
  }

  /** Put the buy at `i` at position `j`, moving those between one place up. */
  method MoveDown(buys: array<FastOrder>, j: nat, i: nat)
    requires j <= i < buys.Length
    modifies buys
    ensures Moved(old(buys[..]), buys[..], j, i)
  {
    var buy := buys[i];
    var k := i;
    while k > j
      invariant j <= k <= i
      invariant forall x :: 0 <= x < k || i < x < buys.Length ==> buys[x] == old(buys[x])
      invariant forall x :: k < x <= i ==> buys[x] == old(buys[x - 1])
    {
      buys[k] := buys[k - 1];
      k := k - 1;
    }
    buys[j] := buy;
  }

  // ---------- Zone books ----------

  /** Inserting one more resting sell keeps a book in order. */
  lemma InsertEntryOk(entries: seq<Entry>, sells: seq<FastOrder>, i: nat, now: I64)
    requires i < |sells| && sells[i].Resting(now) && UniqueIds(sells)
    requires EntriesOk(entries, sells[i].zone, sells, now)
    requires forall k :: 0 <= k < |entries| ==> entries[k].idx != i
    ensures EntriesOk(Insert(entries, EntryOf(sells, i), EntryKey), sells[i].zone, sells, now)
  {
    var e := EntryOf(sells, i);
    var r := Insert(entries, e, EntryKey);
    InsertSorted(entries, e, EntryKey);
    forall k | 0 <= k < |r| ensures EntryOk(r[k], sells[i].zone, sells, now) {
      InsertMember(entries, e, EntryKey, r[k]);
    }
  }

  /** Put a resting sell into the book of its zone, opening the book if it is the first. */
  method Shelve(books: seq<ZoneBook>, sells: seq<FastOrder>, i: nat, now: I64) returns (r: seq<ZoneBook>)
    requires i < |sells| && sells[i].Resting(now) && UniqueIds(sells)
    requires BooksSound(books, sells, now) && BooksComplete(books, sells, now, i) && IdxBelow(books, i)
    ensures BooksSound(r, sells, now) && BooksComplete(r, sells, now, i + 1) && IdxBelow(r, i + 1)
  {
    var entry := EntryOf(sells, i);
    var b := 0;
    while b < |books| && books[b].zone != sells[i].zone
      invariant b <= |books|
      invariant forall a :: 0 <= a < b ==> books[a].zone != sells[i].zone
    {
      b := b + 1;
    }
    var shelf := if b < |books| then books[b].entries else [];
    var grown := ZoneBook(sells[i].zone, Insert(shelf, entry, EntryKey));
    InsertEntryOk(shelf, sells, i, now);
    r := if b < |books| then books[b := grown] else books + [grown];
    forall e: Entry ensures e in grown.entries <==> e == entry || e in shelf {
      InsertMember(shelf, entry, EntryKey, e);
    }
    assert r[b] == grown;
    forall e: Entry | e == entry || Shelved(books, e) ensures Shelved(r, e) {
      if e != entry {
        var a :| 0 <= a < |books| && e in books[a].entries;
        assert e in r[a].entries;
      } else {
        assert e in r[b].entries;
      }
    }
  }

  ghost predicate IdxBelow(books: seq<ZoneBook>, n: nat) {
    forall b, e :: 0 <= b < |books| && e in books[b].entries ==> e.idx < n
  }

  /** Segment the tradeable, unexpired sells by zone and price-time priority. */
  method OpenBooks(sells: seq<FastOrder>, now: I64) returns (books: seq<ZoneBook>)
    requires UniqueIds(sells)
    ensures BooksOk(books, sells, now)
  {
    books := [];
    for i := 0 to |sells|
      invariant BooksSound(books, sells, now) && BooksComplete(books, sells, now, i) && IdxBelow(books, i)
    {
      if sells[i].Resting(now) {
        books := Shelve(books, sells, i, now);
      }
    }
  }

  /** `zone_books.get_mut(zone)` and the key of a resting sell in it. */
  method FindEntry(books: seq<ZoneBook>, sells: seq<FastOrder>, i: nat, now: I64) returns (b: nat, k: nat)
    requires BooksOk(books, sells, now) && i < |sells| && sells[i].Resting(now)
    ensures b < |books| && k < |books[b].entries| && books[b].entries[k] == EntryOf(sells, i)
  {
    InOwnZone(books, sells, now, i);
    ghost var home :| 0 <= home < |books| && books[home].zone == sells[i].zone && EntryOf(sells, i) in books[home].entries;
    b := 0;
    while books[b].zone != sells[i].zone
      invariant b <= home
      decreases home - b
    {
      b := b + 1;
    }
    var entries := books[b].entries;
    ghost var place :| 0 <= place < |entries| && entries[place] == EntryOf(sells, i);
    k := 0;
    while entries[k].key != BookKey(sells[i])
      invariant k <= place
      decreases place - k
    {
      k := k + 1;
    }
    KeyOnce(entries, k, place, EntryKey);
  }

  /** Take a depleted sell out of its zone's book. */
  method Unshelve(books: seq<ZoneBook>, sells: seq<FastOrder>, i: nat, filled: FastOrder, now: I64) returns (r: seq<ZoneBook>)
    requires BooksOk(books, sells, now) && i < |sells| && sells[i].Resting(now)
    requires filled.SameTerms(sells[i]) && !filled.Resting(now)
    ensures BooksOk(r, sells[i := filled], now)
  {
    var b, k := FindEntry(books, sells, i, now);
    r := books[b := Without(books[b], k)];
    UnshelveSound(books, sells, i, filled, now, b, k);
    UnshelveComplete(books, sells, i, filled, now, b, k);
  }

  lemma InOwnZone(books: seq<ZoneBook>, sells: seq<FastOrder>, now: I64, i: nat)
    requires BooksOk(books, sells, now) && i < |sells| && sells[i].Resting(now)
    ensures exists b :: 0 <= b < |books| && books[b].zone == sells[i].zone && EntryOf(sells, i) in books[b].entries
  {
    assert Shelved(books, EntryOf(sells, i));
  }

  function Without(book: ZoneBook, k: nat): ZoneBook
    requires k < |book.entries|
  {
    book.(entries := book.entries[..k] + book.entries[k + 1..])
  }

  lemma UnshelveSound(books: seq<ZoneBook>, sells: seq<FastOrder>, i: nat, filled: FastOrder, now: I64, b: nat, k: nat)
    requires BooksSound(books, sells, now) && i < |sells|
    requires filled.SameTerms(sells[i]) && b < |books| && k < |books[b].entries| && books[b].entries[k] == EntryOf(sells, i)
    ensures BooksSound(books[b := Without(books[b], k)], sells[i := filled], now)
  {
    var es, books' := books[b].entries, books[b := Without(books[b], k)];
    forall a, j | 0 <= a < |books'| && 0 <= j < |books'[a].entries|
      ensures books'[a].entries[j].idx != i
    {
      if a == b {
        assert books'[a].entries[j] == if j < k then es[j] else es[j + 1];
      }
    }
  }

  lemma UnshelveComplete(books: seq<ZoneBook>, sells: seq<FastOrder>, i: nat, filled: FastOrder, now: I64, b: nat, k: nat)
    requires BooksComplete(books, sells, now, |sells|) && i < |sells| && !filled.Resting(now)
    requires b < |books| && k < |books[b].entries| && books[b].entries[k] == EntryOf(sells, i)
    ensures BooksComplete(books[b := Without(books[b], k)], sells[i := filled], now, |sells|)
  {
    var es, books', sells' := books[b].entries, books[b := Without(books[b], k)], sells[i := filled];
    forall j | 0 <= j < |sells'| && sells'[j].Resting(now) ensures Shelved(books', EntryOf(sells', j)) {
      assert Shelved(books, EntryOf(sells, j));
      var a :| 0 <= a < |books| && EntryOf(sells, j) in books[a].entries;
      if a == b {
        var m :| 0 <= m < |es| && es[m] == EntryOf(sells, j);
        assert books'[b].entries[if m < k then m else m - 1] == es[m];
      }
      assert EntryOf(sells', j) in books'[a].entries;
    }
  }

  // ---------- Fill-or-kill simulation ----------

  ghost predicate DistinctSells(cands: seq<Candidate>) {
    forall i, j :: 0 <= i < j < |cands| ==> cands[i].sellIdx != cands[j].sellIdx
  }

  /** Each sell is a candidate at most once. */
  lemma CandidatesDistinct(sells: seq<FastOrder>, buy: FastOrder, need: int, env: Env)
    requires UniqueIds(sells)
    ensures DistinctSells(AllCandidates(sells, buy, need, env))
  {
    var all := AllCandidates(sells, buy, need, env);
    RankedSorted(sells, |sells|, buy, need, env);
    forall i, j | 0 <= i < j < |all| ensures all[i].sellIdx != all[j].sellIdx {
      assert Offer(sells, all[i].sellIdx, buy, need, env) == Some(all[i]);
      assert Offer(sells, all[j].sellIdx, buy, need, env) == Some(all[j]);
      KeysInOrder(all, i, j);
    }
  }

  /** The remaining candidates' sells are as they were in `sells`. */
  ghost predicate Untouched(m: Market, sells: seq<FastOrder>, cands: seq<Candidate>) {
    |m.sells| == |sells| && Indexed(cands, |sells|) && forall k :: 0 <= k < |cands| ==> m.sells[cands[k].sellIdx] == sells[cands[k].sellIdx]
  }

  /** A fill leaves the sells of later candidates alone. */
  lemma FillLeavesTail(m: Market, sells: seq<FastOrder>, cands: seq<Candidate>, env: Env)
    requires Servable(m, env) && cands != [] && DistinctSells(cands) && Untouched(m, sells, cands)
    ensures Untouched(FillOne(m, cands[0], env), sells, cands[1..])
  {
  }

  /** Run the drain on the side, against a copy of the link ledger and the resting sells as
      they stand, and report what it would leave unfilled. */
  method SimulateFok(buy: FastOrder, sells: seq<FastOrder>, cands: seq<Candidate>, flow: Flow, env: Env,
                     ghost matches: seq<MatchResult>)
    returns (need: int)
    requires Indexed(cands, |sells|) && DistinctSells(cands) && buy.metadataIndex < |env.buyMetadata|
    requires buy.Remaining() >= MIN_TRADE_AMOUNT
    ensures need == Drain(Market(buy, sells, flow, matches), cands, env).buy.Remaining()
  {
    hide MakeMatch, FlowOn, Offer;
    ghost var start := Market(buy, sells, flow, matches);
    ghost var m := start;
    need := buy.Remaining();
    var simFlow := flow;
    var i := 0;
    while i < |cands|
      invariant 0 <= i <= |cands|
      invariant Servable(m, env) && Untouched(m, sells, cands[i..]) && DistinctSells(cands[i..])
      invariant m.buy.zone == buy.zone && m.flow == simFlow && m.buy.Remaining() == need >= MIN_TRADE_AMOUNT
      invariant Drain(m, cands[i..], env) == Drain(start, cands, env)
      decreases |cands| - i
    {
      var sell := sells[cands[i].sellIdx];
      assert cands[i..][0] == cands[i] && cands[i..][1..] == cands[i + 1..];
      FillLeavesTail(m, sells, cands[i..], env);
      m := FillOne(m, cands[i], env);
      var take := FillTake(need, sell.Remaining());
      if take.Some? {
        var link := Link(sell.zone, buy.zone);
        var total := FlowOn(simFlow, link) + take.value;
        if env.topology.canAccommodate(sell.zone, buy.zone, total) {
          simFlow := simFlow[link := total];
          need := need - take.value;
          if need < MIN_TRADE_AMOUNT {
            return;
          }
        }
      }
      i := i + 1;
    }
  }

  // ---------- Draining candidates in place ----------

  /** Totals the engine accumulates while it emits matches. */
  lemma VolumeExtend(matches: seq<MatchResult>, m: MatchResult)
    ensures Volume(matches + [m]) == Volume(matches) + m.matchAmount
  {
    assert (matches + [m])[..|matches|] == matches;
  }

  lemma BooksKept(books: seq<ZoneBook>, sells: seq<FastOrder>, i: nat, filled: FastOrder, now: I64)
    requires BooksOk(books, sells, now) && i < |sells| && sells[i].Resting(now)
    requires filled.SameTerms(sells[i]) && filled.Resting(now)
    ensures BooksOk(books, sells[i := filled], now)
  {
    var sells' := sells[i := filled];
    forall j | 0 <= j < |sells'| && sells'[j].Resting(now)
      ensures Shelved(books, EntryOf(sells', j))
    {
      assert Shelved(books, EntryOf(sells, j));
    }
  }

  /** Fill buy `b` from the candidates in order: both slices, the link ledger, the books and
      the results advance together. */
  method DrainInto(buys: array<FastOrder>, b: nat, sells: array<FastOrder>, cands: seq<Candidate>, env: Env,
                   books0: seq<ZoneBook>, flow0: Flow, results0: seq<MatchResult>, volume0: int)
    returns (books: seq<ZoneBook>, flow: Flow, results: seq<MatchResult>, volume: int)
    requires buys != sells && b < buys.Length && buys[b].metadataIndex < |env.buyMetadata|
    requires Indexed(cands, sells.Length)
    requires forall k :: 0 <= k < |cands| ==> !sells[cands[k].sellIdx].IsExpired(env.now)
    requires BooksOk(books0, sells[..], env.now) && volume0 == Volume(results0)
    modifies buys, sells
    ensures BooksOk(books, sells[..], env.now) && volume == Volume(results)
    ensures var m := Drain(Market(old(buys[b]), old(sells[..]), flow0, results0), cands, env);
      buys[..] == old(buys[..])[b := m.buy] && sells[..] == m.sells && flow == m.flow && results == m.matches
  {
    hide BooksOk, MakeMatch, Volume, FlowOn, Offer;
    books, flow, results, volume := books0, flow0, results0, volume0;
    ghost var start := Market(buys[b], sells[..], flow, results);
    ghost var m := start;
    var i := 0;
    while i < |cands|
      invariant 0 <= i <= |cands|
      invariant m == Market(buys[b], sells[..], flow, results) && Servable(m, env)
      invariant buys[..] == old(buys[..])[b := m.buy]
      invariant forall k :: 0 <= k < |cands| ==> !sells[cands[k].sellIdx].IsExpired(env.now)
      invariant BooksOk(books, sells[..], env.now) && volume == Volume(results)
      invariant Drain(m, cands[i..], env) == Drain(start, cands, env)
    {
      var need := buys[b].Remaining();
      if need < MIN_TRADE_AMOUNT {
        break;
      }
      var c := cands[i];
      assert cands[i..][0] == c && cands[i..][1..] == cands[i + 1..];
      i := i + 1;
      var sell := sells[c.sellIdx];
      ghost var before := sells[..];
      ghost var next := FillOne(m, c, env);
      var take := FillTake(need, sell.Remaining());
      if take.None? {
        m := next;
        continue;
      }
      var link := Link(sell.zone, buys[b].zone);
      var total := FlowOn(flow, link) + take.value;
      if !env.topology.canAccommodate(link.from, link.to, total) {
        m := next;
        continue;
      }
      var match' := MakeMatch(buys[b], sell, c, take.value, env.buyMetadata[buys[b].metadataIndex].epochId);
      VolumeExtend(results, match');
      results := results + [match'];
      volume := volume + take.value;
      var filled := sell.Fill(take.value);
      if filled.Remaining() < MIN_TRADE_AMOUNT {
        books := Unshelve(books, sells[..], c.sellIdx, filled, env.now);
      } else {
        BooksKept(books, sells[..], c.sellIdx, filled, env.now);
      }
      buys[b] := buys[b].Fill(take.value);
      sells[c.sellIdx] := filled;
      flow := flow[link := total];
      assert sells[..] == before[c.sellIdx := filled];
      m := next;
    }
  }

  // ---------- One buy, and the whole cycle ----------

  /** Where the gather-and-drain loop stands: about to run its only pass, or about to rebuild
      after an optimistic pass that was cut short and left the buy unfilled. */
  ghost predicate AtPass(start: Market, m: Market, env: Env, fullScan: bool)
    requires Servable(start, env)
  {
    if start.buy.timeInForce.Fok? then fullScan && m == start
    else if !fullScan then m == start
    else
      var need := start.buy.Remaining();
      var all := AllCandidates(start.sells, start.buy, need, env);
      var n := CoverFrom(all, start.sells, need, 0);
      && m == Drain(start, all[..n], env)
      && m.buy.Remaining() >= MIN_TRADE_AMOUNT && Supply(all[..n], start.sells) >= need
  }

  /** Gather, check fill-or-kill, drain; rebuild once when a truncated pass left a shortfall. */
  method ServeInPlace(buys: array<FastOrder>, b: nat, sells: array<FastOrder>, env: Env,
                      books0: seq<ZoneBook>, flow0: Flow, results0: seq<MatchResult>, volume0: int)
    returns (books: seq<ZoneBook>, flow: Flow, results: seq<MatchResult>, volume: int)
    requires buys != sells && b < buys.Length && buys[b].metadataIndex < |env.buyMetadata|
    requires UniqueIds(sells[..]) && NonNegativePrices(sells[..]) && env.multiplier > 0
    requires BooksOk(books0, sells[..], env.now) && volume0 == Volume(results0)
    requires buys[b].Resting(env.now)
    modifies buys, sells
    ensures BooksOk(books, sells[..], env.now) && volume == Volume(results)
    ensures var m := ServeBuy(Market(old(buys[b]), old(sells[..]), flow0, results0), env);
      buys[..] == old(buys[..])[b := m.buy] && sells[..] == m.sells && flow == m.flow && results == m.matches
  {
    hide BooksOk, AllCandidates, Volume, Drain, CoverFrom, Supply;
    books, flow, results, volume := books0, flow0, results0, volume0;
    ghost var start := Market(buys[b], sells[..], flow, results);
    var need := buys[b].Remaining();
    var fullScan := buys[b].timeInForce.Fok?;
    while true
      invariant buys[b].SameTerms(start.buy) && SameOrders(start.sells, sells[..])
      invariant buys[..] == old(buys[..])[b := buys[b]]
      invariant BooksOk(books, sells[..], env.now) && volume == Volume(results)
      invariant AtPass(start, Market(buys[b], sells[..], flow, results), env, fullScan)
      decreases !fullScan
    {
      ghost var m := Market(buys[b], sells[..], flow, results);
      var cands, truncated := GatherCandidates(books, sells[..], buys[b], need, env, !fullScan);
      CandidatesDistinct(sells[..], buys[b], need, env);
      CandidatesRest(sells[..], buys[b], need, env, cands);
      if buys[b].timeInForce.Fok? {
        var unfilled := SimulateFok(buys[b], sells[..], cands, flow, env, results);
        if unfilled > 0 {
          break;
        }
      }
      DrainKeepsTerms(m, cands, env);
      books, flow, results, volume := DrainInto(buys, b, sells, cands, env, books, flow, results, volume);
      if fullScan || buys[b].Remaining() < MIN_TRADE_AMOUNT || !truncated {
        break;
      }
      fullScan := true;
    }
  }

  lemma CandidatesRest(sells: seq<FastOrder>, buy: FastOrder, need: int, env: Env, cands: seq<Candidate>)
    requires cands <= AllCandidates(sells, buy, need, env)
    ensures Indexed(cands, |sells|)
    ensures forall k :: 0 <= k < |cands| ==> !sells[cands[k].sellIdx].IsExpired(env.now)
  {
    forall k | 0 <= k < |cands| ensures cands[k].sellIdx < |sells| && !sells[cands[k].sellIdx].IsExpired(env.now) {
      assert Offer(sells, AllCandidates(sells, buy, need, env)[k].sellIdx, buy, need, env) == Some(cands[k]);
    }
  }

  lemma ServeSkips(m: Market, env: Env)
    requires Servable(m, env) && !m.buy.Resting(env.now)
    ensures ServeBuy(m, env) == m
  {
  }

  lemma RunEnds(c: Cycle, env: Env)
    requires Runnable(c.buys, env)
    ensures Run(c, |c.buys|, env, false) == c
  {
  }

  lemma RunStep(c: Cycle, b: nat, env: Env)
    requires b < |c.buys| && Runnable(c.buys, env)
    ensures var next := c.After(b, ServeBuy(c.MarketOf(b), env));
      && Runnable(next.buys, env) && SameOrders(c.sells, next.sells)
      && Run(next, b + 1, env, false) == Run(c, b, env, false)
  {
    ServeKeepsTerms(c.MarketOf(b), env, false);
  }

  /** Ids of immediate orders that must not rest past this cycle. */
  method SweepImmediate(orders: seq<FastOrder>, now: I64, ids0: seq<Uuid>) returns (ids: seq<Uuid>)
    ensures ids == ids0 + Unrested(orders, now)
  {
    ids := ids0;
    for i := 0 to |orders|
      invariant ids == ids0 + Unrested(orders[..i], now)
    {
      assert orders[..i + 1][..i] == orders[..i];
      var o := orders[i];
      if o.timeInForce.IsImmediate() && !o.IsExpired(now) && o.Remaining() > 0 {
        ids := ids + [o.id];
      }
    }
    assert orders[..|orders|] == orders;
  }

  /** Filling sells keeps their ids and prices. */
  lemma SameSells(start: seq<FastOrder>, sells: seq<FastOrder>, after: seq<FastOrder>)
    ensures SameOrders(start, start)
    ensures SameOrders(start, sells) && SameOrders(sells, after) ==> SameOrders(start, after)
    ensures SameOrders(start, sells) && UniqueIds(start) && NonNegativePrices(start) ==> UniqueIds(sells) && NonNegativePrices(sells)
  {
  }

  /** Serve the ranked buys in turn against the open books. */
  method ServeAll(buys: array<FastOrder>, sells: array<FastOrder>, env: Env, start: seq<ZoneBook>)
    returns (results: seq<MatchResult>, volume: int, ghost flow: Flow)
    requires buys != sells && Runnable(buys[..], env) && env.multiplier > 0
    requires UniqueIds(sells[..]) && NonNegativePrices(sells[..]) && BooksOk(start, sells[..], env.now)
    modifies buys, sells
    ensures Cycle(buys[..], sells[..], flow, results) == Run(Cycle(old(buys[..]), old(sells[..]), map[], []), 0, env, false)
    ensures volume == Volume(results)
  {
    hide BooksOk, ServeBuy, Run, UniqueIds, NonNegativePrices, SameOrders;
    ghost var c := Cycle(buys[..], sells[..], map[], []);
    var books, links := start, map[];
    results, volume := [], 0;
    SameSells(c.sells, c.sells, c.sells);
    for b := 0 to buys.Length
      invariant Runnable(buys[..], env)
      invariant SameOrders(c.sells, sells[..])
      invariant BooksOk(books, sells[..], env.now) && volume == Volume(results)
      invariant Run(Cycle(buys[..], sells[..], links, results), b, env, false) == Run(c, 0, env, false)
    {
      ghost var here := Cycle(buys[..], sells[..], links, results);
      RunStep(here, b, env);
      SameSells(c.sells, sells[..], here.After(b, ServeBuy(here.MarketOf(b), env)).sells);
      if buys[b].Resting(env.now) {
        books, links, results, volume := ServeInPlace(buys, b, sells, env, books, links, results, volume);
      } else {
        assert here.After(b, ServeBuy(here.MarketOf(b), env)) == here by { ServeSkips(here.MarketOf(b), env); }
      }
    }
    RunEnds(Cycle(buys[..], sells[..], links, results), env);
    flow := links;
  }

  /** One matching cycle. */
  method MatchCycle(buys: array<FastOrder>, sells: array<FastOrder>, buyMetadata: seq<OrderMetadata>,
                    topology: Topology, multiplier: I64, now: I64)
    returns (results: seq<MatchResult>, stats: CycleStats)
    requires buys != sells
    requires UniqueIds(sells[..]) && NonNegativePrices(sells[..])
    requires Runnable(buys[..], Env(topology, multiplier, now, buyMetadata))
    modifies buys, sells
    ensures Runnable(RankBuys(old(buys[..])), Env(topology, multiplier, now, buyMetadata))
    ensures var c := CycleOutcome(old(buys[..]), old(sells[..]), Env(topology, multiplier, now, buyMetadata), false);
      && buys[..] == c.buys && sells[..] == c.sells && results == c.matches
      && stats == CycleStats(|c.matches|, Volume(c.matches), Unrested(c.buys, now) + Unrested(c.sells, now))
  {
    hide BooksOk, Unrested, Run, UniqueIds, NonNegativePrices, IsSortOf, BuyKey, RankBuys;
    var env := Env(topology, GuardMultiplier(multiplier), now, buyMetadata);
    RankBuysKeeps(buys[..], env);
    SortBuys(buys);
    var books := OpenBooks(sells[..], now);
    var volume;
    ghost var flow;
    results, volume, flow := ServeAll(buys, sells, env, books);
    var ids := SweepImmediate(buys[..], now, []);
    ids := SweepImmediate(sells[..], now, ids);
    stats := CycleStats(|results|, volume, ids);
  }
}
