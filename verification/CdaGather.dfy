/** Zone-segmented sell books and the lazy k-way merge over them. */
module CdaGather {
  import opened Options
  import opened FastPrices
  import opened Words
  import opened Orders
  import opened Ordering
  import opened Pricing
  import opened CdaSpec

  datatype ZoneBook = ZoneBook(zone: Zone, entries: seq<Entry>)

  function BookKey(o: FastOrder): Key { Key(o.price, o.createdAt, o.id, 0) }

  lemma BookKeyUndercuts(a: FastOrder, b: FastOrder)
    ensures BookKey(a).Less(BookKey(b)) <==> Undercuts(a, b)
  {
  }

  ghost predicate EntryOk(e: Entry, zone: Zone, sells: seq<FastOrder>, now: I64) {
    e.idx < |sells| && e.key == BookKey(sells[e.idx]) && sells[e.idx].zone == zone && sells[e.idx].Resting(now)
  }

  ghost predicate EntriesOk(entries: seq<Entry>, zone: Zone, sells: seq<FastOrder>, now: I64) {
    StrictlySorted(entries, EntryKey) && forall k :: 0 <= k < |entries| ==> EntryOk(entries[k], zone, sells, now)
  }

  function EntryOf(sells: seq<FastOrder>, i: nat): Entry
    requires i < |sells|
  {
    Entry(BookKey(sells[i]), i)
  }

  ghost predicate Shelved(books: seq<ZoneBook>, e: Entry) {
    exists b :: 0 <= b < |books| && e in books[b].entries
  }

  /** The books hold only resting sells, each in its own zone's book, in order. */
  ghost predicate BooksSound(books: seq<ZoneBook>, sells: seq<FastOrder>, now: I64) {
    && (forall b :: 0 <= b < |books| ==> EntriesOk(books[b].entries, books[b].zone, sells, now))
    && (forall a, b :: 0 <= a < b < |books| ==> books[a].zone != books[b].zone)
  }

  /** All resting ones of the first `n` sells are in a book. */
  ghost predicate BooksComplete(books: seq<ZoneBook>, sells: seq<FastOrder>, now: I64, n: nat) {
    forall i :: 0 <= i < |sells| && i < n && sells[i].Resting(now) ==> Shelved(books, EntryOf(sells, i))
  }

  ghost predicate BooksOk(books: seq<ZoneBook>, sells: seq<FastOrder>, now: I64) {
    BooksSound(books, sells, now) && BooksComplete(books, sells, now, |sells|)
  }

  /** What a buy asks of the books. */
  datatype Query = Query(sells: seq<FastOrder>, buy: FastOrder, need: int, env: Env) {
    ghost predicate Ok() {
      UniqueIds(sells) && NonNegativePrices(sells) && env.multiplier > 0
    }

    function Price(e: Entry, fees: ZoneFees): Option<Candidate> {
      if e.idx >= |sells| then None
      else PricedCandidate(buy, need, e.idx, sells[e.idx], env.topology, fees, env.multiplier)
    }

    function All(): seq<Candidate> { AllCandidates(sells, buy, need, env) }

    function FeesFrom(zone: Zone): ZoneFees { FeesBetween(env.topology, zone, buy.zone) }

    predicate Reachable(zone: Zone) { env.topology.canAccommodate(zone, buy.zone, MIN_TRADE_AMOUNT) }

    /** `book.range(..=(bid, MAX, MAX))`. */
    function UpToBid(entries: seq<Entry>): (r: seq<Entry>)
      ensures r <= entries
      ensures r == entries || entries[|r|].key.first > buy.price
    {
      if entries == [] || entries[0].key.first > buy.price then [] else [entries[0]] + UpToBid(entries[1..])
    }
  }

  // ---------- The sorted list the merge must reproduce ----------

  lemma OfferIdentity(sells: seq<FastOrder>, i: nat, buy: FastOrder, need: int, env: Env, c: Candidate)
    requires i < |sells| && Offer(sells, i, buy, need, env) == Some(c)
    ensures c.sellIdx == i && CandidateKey(c).fourth == sells[i].id
  {
  }

  lemma {:induction false} RankedSorted(sells: seq<FastOrder>, n: nat, buy: FastOrder, need: int, env: Env)
    requires n <= |sells| && UniqueIds(sells)
    ensures StrictlySorted(Ranked(sells, n, buy, need, env), CandidateKey)
  {
    hide Offer;
    if n > 0 {
      RankedSorted(sells, n - 1, buy, need, env);
      var rest := Ranked(sells, n - 1, buy, need, env);
      var offer := Offer(sells, n - 1, buy, need, env);
      if offer.Some? {
        OfferIdentity(sells, n - 1, buy, need, env, offer.value);
        forall k | 0 <= k < |rest| ensures CandidateKey(rest[k]) != CandidateKey(offer.value) {
          OfferIdentity(sells, rest[k].sellIdx, buy, need, env, rest[k]);
        }
        InsertSorted(rest, offer.value, CandidateKey);
        assert Ranked(sells, n, buy, need, env) == Insert(rest, offer.value, CandidateKey);
      }
    }
  }

  lemma {:induction false} RankedMember(sells: seq<FastOrder>, n: nat, buy: FastOrder, need: int, env: Env, i: nat)
    requires i < n <= |sells| && Offer(sells, i, buy, need, env).Some?
    ensures Offer(sells, i, buy, need, env).value in Ranked(sells, n, buy, need, env)
  {
    var rest := Ranked(sells, n - 1, buy, need, env);
    if i < n - 1 {
      RankedMember(sells, n - 1, buy, need, env, i);
    }
    match Offer(sells, n - 1, buy, need, env)
    case None =>
    case Some(c) => InsertMember(rest, c, CandidateKey, Offer(sells, i, buy, need, env).value);
  }

  /** Candidate `c` comes before `d`: the lower landed cost, then the sell of lower ask, earlier
      arrival and lower id. */
  ghost predicate Precedes(c: Candidate, d: Candidate, sells: seq<FastOrder>)
    requires c.sellIdx < |sells| && d.sellIdx < |sells|
  {
    c.landed < d.landed || (c.landed == d.landed && Undercuts(sells[c.sellIdx], sells[d.sellIdx]))
  }

  lemma CandidateKeyPrecedes(sells: seq<FastOrder>, buy: FastOrder, need: int, env: Env, c: Candidate, d: Candidate)
    requires c.sellIdx < |sells| && Offer(sells, c.sellIdx, buy, need, env) == Some(c)
    requires d.sellIdx < |sells| && Offer(sells, d.sellIdx, buy, need, env) == Some(d)
    ensures CandidateKey(c).Less(CandidateKey(d)) <==> Precedes(c, d, sells)
  {
    hide LandedCost;
  }

  /** The candidates of a buy in fill order: by landed cost, then by the sells' own ask, arrival
      and id. */
  lemma FillOrder(sells: seq<FastOrder>, buy: FastOrder, need: int, env: Env)
    requires UniqueIds(sells)
    ensures var all := AllCandidates(sells, buy, need, env);
      forall i, j :: 0 <= i < j < |all| ==> Precedes(all[i], all[j], sells)
  {
    hide CandidateKey, Offer, Precedes;
    var all := AllCandidates(sells, buy, need, env);
    RankedSorted(sells, |sells|, buy, need, env);
    forall i, j | 0 <= i < j < |all| ensures Precedes(all[i], all[j], sells) {
      CandidateKeyPrecedes(sells, buy, need, env, all[i], all[j]);
    }
  }

  /** The buy can take from this sell: it can trade and belongs to someone else, its link admits the
      smallest trade and as much of it as is needed, and neither its ask nor its landed cost is
      above the bid. */
  ghost predicate Viable(sell: FastOrder, buy: FastOrder, need: int, env: Env) {
    && Tradeable(sell, env.now) && sell.userId != buy.userId && sell.price <= buy.price
    && env.topology.canAccommodate(sell.zone, buy.zone, MIN_TRADE_AMOUNT)
    && env.topology.canAccommodate(sell.zone, buy.zone, if need <= sell.Remaining() then need else sell.Remaining())
    && LandedCost(sell.price, FeesBetween(env.topology, sell.zone, buy.zone), env.multiplier) <= buy.price
  }

  lemma OfferedWhenViable(sells: seq<FastOrder>, i: nat, buy: FastOrder, need: int, env: Env)
    requires i < |sells|
    ensures Offer(sells, i, buy, need, env).Some? <==> Viable(sells[i], buy, need, env)
    ensures Offer(sells, i, buy, need, env).Some? ==>
      Offer(sells, i, buy, need, env).value.landed
        == LandedCost(sells[i].price, FeesBetween(env.topology, sells[i].zone, buy.zone), env.multiplier)
  {
    hide LandedCost;
    RestingIsTradeable(sells[i], env.now);
  }

  /** The candidates of a buy are exactly the viable sells, each at its landed cost. */
  lemma CandidatesAreTheViable(sells: seq<FastOrder>, buy: FastOrder, need: int, env: Env)
    ensures var all := AllCandidates(sells, buy, need, env);
      && (forall k :: 0 <= k < |all| ==>
            var i := all[k].sellIdx;
            && i < |sells| && Viable(sells[i], buy, need, env)
            && all[k].landed == LandedCost(sells[i].price, FeesBetween(env.topology, sells[i].zone, buy.zone), env.multiplier))
      && (forall i :: 0 <= i < |sells| && Viable(sells[i], buy, need, env) ==> exists k :: 0 <= k < |all| && all[k].sellIdx == i)
  {
    hide LandedCost, Offer, Viable;
    var all := AllCandidates(sells, buy, need, env);
    forall k | 0 <= k < |all|
      ensures Viable(sells[all[k].sellIdx], buy, need, env)
      ensures all[k].landed
        == LandedCost(sells[all[k].sellIdx].price, FeesBetween(env.topology, sells[all[k].sellIdx].zone, buy.zone), env.multiplier)
    {
      assert Offer(sells, all[k].sellIdx, buy, need, env) == Some(all[k]);
      OfferedWhenViable(sells, all[k].sellIdx, buy, need, env);
    }
    forall i | 0 <= i < |sells| && Viable(sells[i], buy, need, env) ensures exists k :: 0 <= k < |all| && all[k].sellIdx == i {
      OfferedWhenViable(sells, i, buy, need, env);
      RankedMember(sells, |sells|, buy, need, env, i);
      var c := Offer(sells, i, buy, need, env).value;
      OfferIdentity(sells, i, buy, need, env, c);
      var k :| 0 <= k < |all| && all[k] == c;
    }
  }

  /** Candidates from position `n` of the sorted list on. */
  ghost function Tail(all: seq<Candidate>, n: nat): set<Candidate>
    requires n <= |all|
  {
    set k | n <= k < |all| :: all[k]
  }

  lemma TailNonEmpty(all: seq<Candidate>, n: nat)
    requires n <= |all|
    ensures n < |all| ==> Tail(all, n) != {}
  {
    if n < |all| {
      assert all[n] in Tail(all, n);
    }
  }

  lemma KeysInOrder(all: seq<Candidate>, i: nat, j: nat)
    requires i <= j < |all| && StrictlySorted(all, CandidateKey)
    ensures i < j ==> CandidateKey(all[i]).Less(CandidateKey(all[j]))
  {
  }

  /** The least pending candidate is the next one of the sorted list. */
  lemma NextOfTail(all: seq<Candidate>, n: nat, c: Candidate)
    requires n <= |all| && StrictlySorted(all, CandidateKey)
    requires c in Tail(all, n)
    requires forall d :: d in Tail(all, n) && d != c ==> CandidateKey(c).Less(CandidateKey(d))
    ensures n < |all| && all[n] == c
    ensures Tail(all, n) == Tail(all, n + 1) + {c}
    ensures c !in Tail(all, n + 1)
  {
    var k :| n <= k < |all| && all[k] == c;
    assert all[n] in Tail(all, n);
    KeysInOrder(all, n, k);
  }

  // ---------- What a book still has to offer ----------

  ghost function Pending(q: Query, entries: seq<Entry>, fees: ZoneFees): set<Candidate> {
    set e | e in entries && q.Price(e, fees).Some? :: q.Price(e, fees).value
  }

  /** Within one book the entry order is the fill order. */
  lemma EntryOrderIsFillOrder(q: Query, zone: Zone, fees: ZoneFees, e: Entry, f: Entry)
    requires q.Ok() && EntryOk(e, zone, q.sells, q.env.now) && EntryOk(f, zone, q.sells, q.env.now)
    requires e.key.Less(f.key) && q.Price(e, fees).Some? && q.Price(f, fees).Some?
    ensures CandidateKey(q.Price(e, fees).value).Less(CandidateKey(q.Price(f, fees).value))
    ensures Undercuts(q.sells[e.idx], q.sells[f.idx])
    ensures q.Price(e, fees).value.landed <= q.Price(f, fees).value.landed
  {
    BookKeyUndercuts(q.sells[e.idx], q.sells[f.idx]);
    LandedMonotone(q.sells[e.idx].price, q.sells[f.idx].price, fees, q.env.multiplier);
  }

  lemma PendingSplit(q: Query, entries: seq<Entry>, fees: ZoneFees)
    requires entries != []
    ensures Pending(q, entries, fees)
         == Pending(q, entries[1..], fees)
            + (match q.Price(entries[0], fees) case None => {} case Some(c) => {c})
  {
    assert forall e :: e in entries <==> e == entries[0] || e in entries[1..];
  }

  /** The head of a book, when it prices, comes before everything behind it. */
  lemma HeadIsLeast(q: Query, entries: seq<Entry>, zone: Zone, fees: ZoneFees)
    requires q.Ok() && entries != [] && EntriesOk(entries, zone, q.sells, q.env.now)
    requires q.Price(entries[0], fees).Some?
    ensures forall d :: d in Pending(q, entries[1..], fees) ==>
      CandidateKey(q.Price(entries[0], fees).value).Less(CandidateKey(d))
  {
    forall d | d in Pending(q, entries[1..], fees)
      ensures CandidateKey(q.Price(entries[0], fees).value).Less(CandidateKey(d))
    {
      var e :| e in entries[1..] && q.Price(e, fees) == Some(d);
      var k :| 0 <= k < |entries[1..]| && entries[1..][k] == e;
      assert entries[k + 1] == e;
      EntryOrderIsFillOrder(q, zone, fees, entries[0], e);
    }
  }

  lemma EntriesTail(entries: seq<Entry>, zone: Zone, sells: seq<FastOrder>, now: I64)
    requires entries != [] && EntriesOk(entries, zone, sells, now)
    ensures EntriesOk(entries[1..], zone, sells, now)
  {
  }

  /** Cutting a book at the bid loses no candidate. */
  lemma BidRangeLosesNothing(q: Query, entries: seq<Entry>, zone: Zone, fees: ZoneFees)
    requires EntriesOk(entries, zone, q.sells, q.env.now)
    ensures EntriesOk(q.UpToBid(entries), zone, q.sells, q.env.now)
    ensures Pending(q, q.UpToBid(entries), fees) == Pending(q, entries, fees)
  {
    var range := q.UpToBid(entries);
    forall k | |range| <= k < |entries| ensures q.Price(entries[k], fees).None? {
      assert k > |range| ==> EntryKey(entries[|range|]).Less(EntryKey(entries[k]));
    }
    assert forall k :: 0 <= k < |range| ==> range[k] == entries[k];
  }

  /** Every viable sell is pending in the book of its zone, and nothing else is pending. */
  lemma BooksOfferAll(q: Query, books: seq<ZoneBook>)
    requires q.Ok() && BooksOk(books, q.sells, q.env.now)
    ensures forall c :: c in Tail(q.All(), 0) <==>
      exists b :: 0 <= b < |books| && q.Reachable(books[b].zone)
                  && c in Pending(q, books[b].entries, q.FeesFrom(books[b].zone))
  {
    var all := q.All();
    forall c | c in Tail(all, 0)
      ensures exists b :: 0 <= b < |books| && q.Reachable(books[b].zone)
                          && c in Pending(q, books[b].entries, q.FeesFrom(books[b].zone))
    {
      var k :| 0 <= k < |all| && all[k] == c;
      assert Offer(q.sells, c.sellIdx, q.buy, q.need, q.env) == Some(c);
      var e := EntryOf(q.sells, c.sellIdx);
      assert Shelved(books, e);
      var b :| 0 <= b < |books| && e in books[b].entries;
      assert EntryOk(e, books[b].zone, q.sells, q.env.now);
      assert c in Pending(q, books[b].entries, q.FeesFrom(books[b].zone));
    }
    forall c, b | 0 <= b < |books| && q.Reachable(books[b].zone)
                  && c in Pending(q, books[b].entries, q.FeesFrom(books[b].zone))
      ensures c in Tail(all, 0)
    {
      var e :| e in books[b].entries && q.Price(e, q.FeesFrom(books[b].zone)) == Some(c);
      assert EntryOk(e, books[b].zone, q.sells, q.env.now);
      RankedMember(q.sells, |q.sells|, q.buy, q.need, q.env, e.idx);
    }
  }

  /** The stopping point of the merge is the shortest covering prefix. */
  lemma CoverIs(all: seq<Candidate>, sells: seq<FastOrder>, need: int, n: nat)
    requires Indexed(all, |sells|) && n <= |all|
    requires forall j :: 0 <= j < n ==> Supply(all[..j], sells) < need
    requires n == |all| || Supply(all[..n], sells) >= need
    ensures CoverFrom(all, sells, need, 0) == n
  {
  }

  lemma SupplyExtend(all: seq<Candidate>, sells: seq<FastOrder>, n: nat)
    requires Indexed(all, |sells|) && n < |all|
    ensures Supply(all[..n + 1], sells) == Supply(all[..n], sells) + sells[all[n].sellIdx].Remaining()
  {
    assert all[..n + 1][..n] == all[..n];
  }

  // ---------- The merge itself ----------

  /** What a gather owes its caller: the whole sorted list, or with early stop its shortest
      covering prefix and whether that prefix does cover the need. */
  ghost predicate Gathered(all: seq<Candidate>, sells: seq<FastOrder>, need: int, earlyStop: bool,
                           cands: seq<Candidate>, truncated: bool)
    requires Indexed(all, |sells|)
  {
    var n := CoverFrom(all, sells, need, 0);
    if earlyStop then cands == all[..n] && truncated == (Supply(all[..n], sells) >= need)
    else cands == all && !truncated
  }

  lemma {:induction false} SupplyGrows(all: seq<Candidate>, sells: seq<FastOrder>, n: nat)
    requires Indexed(all, |sells|) && n <= |all|
    requires forall k :: 0 <= k < |all| ==> sells[all[k].sellIdx].Remaining() >= 0
    ensures Supply(all[..n], sells) <= Supply(all, sells)
    decreases |all|
  {
    if n < |all| {
      SupplyGrows(all[..|all| - 1], sells, n);
      assert all[..|all| - 1][..n] == all[..n];
    } else {
      assert all[..n] == all;
    }
  }

  /** `truncated` says that the resting energy covers the need, not that any was left unscanned. */
  lemma TruncatedMeansCovered(all: seq<Candidate>, sells: seq<FastOrder>, need: int, cands: seq<Candidate>, truncated: bool)
    requires Indexed(all, |sells|) && Gathered(all, sells, need, true, cands, truncated)
    requires forall k :: 0 <= k < |all| ==> sells[all[k].sellIdx].Remaining() >= 0
    ensures truncated <==> Supply(all, sells) >= need
  {
    hide Supply;
    var n := CoverFrom(all, sells, need, 0);
    SupplyGrows(all, sells, n);
    assert n == |all| ==> all[..n] == all;
  }

  /** A single sell that covers the need is reported as truncated with nothing left to scan. */
  lemma LoneCoverIsTruncated(sell: FastOrder, buy: FastOrder, need: int, env: Env, cands: seq<Candidate>, truncated: bool)
    requires Offer([sell], 0, buy, need, env).Some? && 0 < need <= sell.Remaining()
    requires Gathered(AllCandidates([sell], buy, need, env), [sell], need, true, cands, truncated)
    ensures truncated && cands == AllCandidates([sell], buy, need, env)
  {
    hide Offer;
    var all := AllCandidates([sell], buy, need, env);
    assert Ranked([sell], 0, buy, need, env) == [];
    assert |all| == 1 && all[..0] == [] && all[..1] == all;
    SupplyExtend(all, [sell], 0);
    assert Supply([], [sell]) == 0;
    CoverIs(all, [sell], need, 1);
  }

  /** Mid-gather: a prefix of the sorted list is out, and nothing has covered the need yet. */
  ghost predicate Scanning(all: seq<Candidate>, sells: seq<FastOrder>, need: int, earlyStop: bool,
                           cands: seq<Candidate>, gathered: int)
    requires Indexed(all, |sells|)
  {
    && |cands| <= |all| && cands == all[..|cands|]
    && gathered == Supply(all[..|cands|], sells)
    && (earlyStop ==> forall j :: 0 <= j <= |cands| ==> Supply(all[..j], sells) < need)
  }

  lemma ScanStep(all: seq<Candidate>, sells: seq<FastOrder>, need: int, earlyStop: bool,
                 cands: seq<Candidate>, gathered: int, c: Candidate)
    requires Indexed(all, |sells|) && Scanning(all, sells, need, earlyStop, cands, gathered)
    requires |cands| < |all| && all[|cands|] == c
    ensures var more := gathered + sells[c.sellIdx].Remaining();
      if earlyStop && more >= need then Gathered(all, sells, need, earlyStop, cands + [c], true)
      else Scanning(all, sells, need, earlyStop, cands + [c], more)
  {
    var n := |cands|;
    SupplyExtend(all, sells, n);
    assert all[..n + 1] == cands + [c];
    if earlyStop && gathered + sells[c.sellIdx].Remaining() >= need {
      CoverIs(all, sells, need, n + 1);
    }
  }

  lemma ScanDone(all: seq<Candidate>, sells: seq<FastOrder>, need: int, earlyStop: bool,
                 cands: seq<Candidate>, gathered: int)
    requires Indexed(all, |sells|) && Scanning(all, sells, need, earlyStop, cands, gathered)
    requires |cands| == |all|
    ensures Gathered(all, sells, need, earlyStop, cands, false)
  {
    assert all[..|all|] == all;
    if earlyStop {
      CoverIs(all, sells, need, |all|);
    }
  }

  /** A landed-ordered iterator over one reachable zone book, with that link's fees. */
  datatype Cursor = Cursor(fees: ZoneFees, rest: seq<Entry>)

  /** Advance a cursor to its next priced candidate, skipping sells that price out. */
  method NextPriced(q: Query, cursor: Cursor, ghost zone: Zone) returns (next: Option<Candidate>, after: Cursor)
    requires q.Ok() && EntriesOk(cursor.rest, zone, q.sells, q.env.now)
    ensures Advanced(q, cursor, zone, next, after)
  {
    after := cursor;
    while after.rest != []
      invariant after.fees == cursor.fees && EntriesOk(after.rest, zone, q.sells, q.env.now)
      invariant Pending(q, after.rest, after.fees) == Pending(q, cursor.rest, cursor.fees)
      decreases |after.rest|
    {
      next := q.Price(after.rest[0], after.fees);
      PendingSplit(q, after.rest, after.fees);
      EntriesTail(after.rest, zone, q.sells, q.env.now);
      if next.Some? {
        HeadIsLeast(q, after.rest, zone, after.fees);
      }
      after := after.(rest := after.rest[1..]);
      if next.Some? {
        return;
      }
    }
    next := None;
  }

  /** Drain a single reachable book: no heap, its own order is the fill order. */
  method DrainCursor(q: Query, start: Cursor, earlyStop: bool, ghost zone: Zone, ghost all: seq<Candidate>)
    returns (cands: seq<Candidate>, truncated: bool)
    requires q.Ok() && q.need > 0 && EntriesOk(start.rest, zone, q.sells, q.env.now)
    requires Indexed(all, |q.sells|) && StrictlySorted(all, CandidateKey)
    requires Pending(q, start.rest, start.fees) == Tail(all, 0)
    ensures Gathered(all, q.sells, q.need, earlyStop, cands, truncated)
  {
    cands := [];
    var gathered, cursor := 0, start;
    while true
      invariant Scanning(all, q.sells, q.need, earlyStop, cands, gathered)
      invariant EntriesOk(cursor.rest, zone, q.sells, q.env.now)
      invariant Pending(q, cursor.rest, cursor.fees) == Tail(all, |cands|)
      decreases |all| - |cands|
    {
      var next, after := NextPriced(q, cursor, zone);
      if next.None? {
        TailNonEmpty(all, |cands|);
        ScanDone(all, q.sells, q.need, earlyStop, cands, gathered);
        return cands, false;
      }
      NextOfTail(all, |cands|, next.value);
      assert next.value !in Pending(q, after.rest, after.fees) by { KeyIrreflexive(CandidateKey(next.value)); }
      ScanStep(all, q.sells, q.need, earlyStop, cands, gathered, next.value);
      gathered := gathered + q.sells[next.value.sellIdx].Remaining();
      cands, cursor := cands + [next.value], after;
      if earlyStop && gathered >= q.need {
        return cands, true;
      }
    }
  }

  lemma KeyIrreflexive(k: Key)
    ensures !k.Less(k)
  {
  }

  // ---------- Several reachable zones: the heap of heads ----------

  /** The binary heap as its library promises it: a bag of heads, at most one per cursor. */
  type Heap = map<nat, Candidate>

  /** The cursor whose head has the least key, which is what `pop` takes. */
  method Least(heap: Heap) returns (least: nat)
    requires heap.Keys != {}
    ensures least in heap
    ensures forall i :: i in heap ==> !CandidateKey(heap[i]).Less(CandidateKey(heap[least]))
  {
    var left := heap.Keys;
    least :| least in left;
    left := left - {least};
    while left != {}
      invariant left <= heap.Keys && least in heap
      invariant forall i :: i in heap && i !in left ==> !CandidateKey(heap[i]).Less(CandidateKey(heap[least]))
      decreases |left|
    {
      var i :| i in left;
      if CandidateKey(heap[i]).Less(CandidateKey(heap[least])) {
        least := i;
      }
      left := left - {i};
    }
  }

  /** Cursor `i` still holds `c`: as its head, or behind it. */
  ghost predicate Holds(q: Query, cursors: seq<Cursor>, heap: Heap, i: nat, c: Candidate) {
    i < |cursors| && ((i in heap && heap[i] == c) || c in Pending(q, cursors[i].rest, cursors[i].fees))
  }

  ghost predicate OfZone(q: Query, c: Candidate, zone: Zone) {
    c.sellIdx < |q.sells| && q.sells[c.sellIdx].zone == zone
  }

  /** The first `primed` cursors have their least remaining candidate on the heap. */
  ghost predicate HeadsOk(q: Query, cursors: seq<Cursor>, zones: seq<Zone>, heap: Heap, primed: nat) {
    && |zones| == |cursors|
    && (forall i, j :: 0 <= i < j < |zones| ==> zones[i] != zones[j])
    && (forall i :: 0 <= i < |cursors| ==> EntriesOk(cursors[i].rest, zones[i], q.sells, q.env.now))
    && (forall i :: i in heap ==> i < primed && i < |cursors| && OfZone(q, heap[i], zones[i]))
    && (forall i, d :: i in heap && d in Pending(q, cursors[i].rest, cursors[i].fees)
          ==> CandidateKey(heap[i]).Less(CandidateKey(d)))
    && (forall i :: 0 <= i < |cursors| && i < primed && i !in heap ==> Pending(q, cursors[i].rest, cursors[i].fees) == {})
  }

  /** Heads and books together hold exactly `pending`. */
  ghost predicate HeldIs(q: Query, cursors: seq<Cursor>, heap: Heap, pending: set<Candidate>) {
    forall c :: c in pending <==> exists i: nat :: Holds(q, cursors, heap, i, c)
  }

  ghost predicate MergeOk(q: Query, cursors: seq<Cursor>, zones: seq<Zone>, heap: Heap, primed: nat,
                          pending: set<Candidate>)
  {
    HeadsOk(q, cursors, zones, heap, primed) && HeldIs(q, cursors, heap, pending)
  }

  lemma PendingOfZone(q: Query, entries: seq<Entry>, fees: ZoneFees, zone: Zone, c: Candidate)
    requires EntriesOk(entries, zone, q.sells, q.env.now) && c in Pending(q, entries, fees)
    ensures OfZone(q, c, zone)
  {
  }

  /** Only one cursor holds any one candidate. */
  lemma HolderUnique(q: Query, cursors: seq<Cursor>, zones: seq<Zone>, heap: Heap, primed: nat, i: nat, j: nat, c: Candidate)
    requires HeadsOk(q, cursors, zones, heap, primed)
    requires Holds(q, cursors, heap, i, c) && Holds(q, cursors, heap, j, c)
    ensures i == j
  {
    if c in Pending(q, cursors[i].rest, cursors[i].fees) {
      PendingOfZone(q, cursors[i].rest, cursors[i].fees, zones[i], c);
    }
    if c in Pending(q, cursors[j].rest, cursors[j].fees) {
      PendingOfZone(q, cursors[j].rest, cursors[j].fees, zones[j], c);
    }
  }

  /** What advancing `cursor` to `after` yielded: its least candidate, if it had any. */
  ghost predicate Advanced(q: Query, cursor: Cursor, zone: Zone, next: Option<Candidate>, after: Cursor) {
    && after.fees == cursor.fees && EntriesOk(after.rest, zone, q.sells, q.env.now)
    && (next.None? ==> Pending(q, cursor.rest, cursor.fees) == {} == Pending(q, after.rest, after.fees))
    && (next.Some? ==>
          && Pending(q, cursor.rest, cursor.fees) == Pending(q, after.rest, after.fees) + {next.value}
          && forall d :: d in Pending(q, after.rest, after.fees) ==> CandidateKey(next.value).Less(CandidateKey(d)))
  }

  /** The least head is the least of everything pending. */
  lemma LeastHeadIsLeast(q: Query, cursors: seq<Cursor>, zones: seq<Zone>, heap: Heap,
                         pending: set<Candidate>, least: nat)
    requires MergeOk(q, cursors, zones, heap, |cursors|, pending)
    requires least in heap
    requires forall i :: i in heap ==> !CandidateKey(heap[i]).Less(CandidateKey(heap[least]))
    requires forall c, d :: c in pending && d in pending && c != d ==> CandidateKey(c) != CandidateKey(d)
    ensures heap[least] in pending
    ensures forall d :: d in pending && d != heap[least] ==> CandidateKey(heap[least]).Less(CandidateKey(d))
  {
    assert Holds(q, cursors, heap, least, heap[least]);
    forall d | d in pending && d != heap[least]
      ensures CandidateKey(heap[least]).Less(CandidateKey(d))
    {
      var i: nat :| Holds(q, cursors, heap, i, d);
      if d in Pending(q, cursors[i].rest, cursors[i].fees) {
        assert i in heap && CandidateKey(heap[i]).Less(CandidateKey(d));
      }
    }
  }

  /** The heap with cursor `i`'s head replaced. */
  function Rehead(heap: Heap, i: nat, next: Option<Candidate>): Heap {
    if next.Some? then heap[i := next.value] else heap - {i}
  }

  lemma ReheadOk(q: Query, cursors: seq<Cursor>, zones: seq<Zone>, heap: Heap, primed: nat, i: nat,
                 next: Option<Candidate>, after: Cursor)
    requires HeadsOk(q, cursors, zones, heap, primed) && i < |cursors| && i <= primed
    requires Advanced(q, cursors[i], zones[i], next, after)
    ensures HeadsOk(q, cursors[i := after], zones, Rehead(heap, i, next), if i == primed then i + 1 else primed)
  {
    if next.Some? {
      PendingOfZone(q, cursors[i].rest, cursors[i].fees, zones[i], next.value);
    }
  }

  /** Popping a head and advancing its cursor removes exactly that head from what is held. */
  lemma AdvanceRemovesHead(q: Query, cursors: seq<Cursor>, zones: seq<Zone>, heap: Heap, pending: set<Candidate>,
                           i: nat, next: Option<Candidate>, after: Cursor)
    requires HeadsOk(q, cursors, zones, heap, |cursors|) && HeldIs(q, cursors, heap, pending) && i in heap
    requires Advanced(q, cursors[i], zones[i], next, after)
    ensures HeldIs(q, cursors[i := after], Rehead(heap, i, next), pending - {heap[i]})
  {
    var cursors', heap' := cursors[i := after], Rehead(heap, i, next);
    assert heap[i] !in Pending(q, cursors[i].rest, cursors[i].fees) by { KeyIrreflexive(CandidateKey(heap[i])); }
    forall c
      ensures c in pending - {heap[i]} <==> exists k: nat :: Holds(q, cursors', heap', k, c)
    {
      if c in pending && c != heap[i] {
        var k: nat :| Holds(q, cursors, heap, k, c);
        assert Holds(q, cursors', heap', k, c);
      }
      if k: nat :| Holds(q, cursors', heap', k, c) {
        assert Holds(q, cursors, heap, k, c);
        if c == heap[i] {
          HolderUnique(q, cursors, zones, heap, |cursors|, i, k, c);
        }
      }
    }
  }

  /** Moving a cursor's first candidate onto the heap changes nothing about what is held. */
  lemma PrimingKeepsHeld(q: Query, cursors: seq<Cursor>, zones: seq<Zone>, heap: Heap, pending: set<Candidate>,
                         i: nat, next: Option<Candidate>, after: Cursor)
    requires HeldIs(q, cursors, heap, pending) && i < |cursors| && i !in heap && |zones| == |cursors|
    requires Advanced(q, cursors[i], zones[i], next, after)
    ensures HeldIs(q, cursors[i := after], Rehead(heap, i, next), pending)
  {
    var cursors', heap' := cursors[i := after], Rehead(heap, i, next);
    forall c
      ensures c in pending <==> exists k: nat :: Holds(q, cursors', heap', k, c)
    {
      if c in pending {
        var k: nat :| Holds(q, cursors, heap, k, c);
        assert Holds(q, cursors', heap', k, c);
      }
      if k: nat :| Holds(q, cursors', heap', k, c) {
        assert Holds(q, cursors, heap, k, c);
      }
    }
  }

  lemma TailKeysDistinct(all: seq<Candidate>, n: nat)
    requires n <= |all| && StrictlySorted(all, CandidateKey)
    ensures forall c, d :: c in Tail(all, n) && d in Tail(all, n) && c != d ==> CandidateKey(c) != CandidateKey(d)
  {
  }

  /** Popping the least head yields the next candidate of the sorted list. */
  lemma PopIsNext(q: Query, cursors: seq<Cursor>, zones: seq<Zone>, heap: Heap, all: seq<Candidate>, n: nat, least: nat)
    requires n <= |all| && StrictlySorted(all, CandidateKey)
    requires MergeOk(q, cursors, zones, heap, |cursors|, Tail(all, n)) && least in heap
    requires forall i :: i in heap ==> !CandidateKey(heap[i]).Less(CandidateKey(heap[least]))
    ensures n < |all| && all[n] == heap[least] && Tail(all, n + 1) == Tail(all, n) - {heap[least]}
  {
    TailKeysDistinct(all, n);
    LeastHeadIsLeast(q, cursors, zones, heap, Tail(all, n), least);
    NextOfTail(all, n, heap[least]);
  }

  lemma NothingPending(q: Query, cursors: seq<Cursor>, zones: seq<Zone>, heap: Heap, all: seq<Candidate>, n: nat)
    requires n <= |all|
    requires MergeOk(q, cursors, zones, heap, |cursors|, Tail(all, n)) && heap.Keys == {}
    ensures n == |all|
  {
    assert forall i: nat, c :: !Holds(q, cursors, heap, i, c);
    TailNonEmpty(all, n);
  }

  /** Put the first priced candidate of every cursor on the heap. */
  method Prime(q: Query, start: seq<Cursor>, ghost zones: seq<Zone>, ghost pending: set<Candidate>)
    returns (cursors: seq<Cursor>, heap: Heap)
    requires q.Ok() && MergeOk(q, start, zones, map[], 0, pending)
    ensures |cursors| == |start| && MergeOk(q, cursors, zones, heap, |cursors|, pending)
  {
    cursors, heap := start, map[];
    for i := 0 to |start|
      invariant |cursors| == |start|
      invariant MergeOk(q, cursors, zones, heap, i, pending)
    {
      var next, after := NextPriced(q, cursors[i], zones[i]);
      PrimingKeepsHeld(q, cursors, zones, heap, pending, i, next, after);
      ReheadOk(q, cursors, zones, heap, i, i, next, after);
      cursors, heap := cursors[i := after], Rehead(heap, i, next);
    }
  }

  /** Merge the reachable books by repeatedly taking the least head. */
  method MergeCursors(q: Query, start: seq<Cursor>, earlyStop: bool, ghost zones: seq<Zone>, ghost all: seq<Candidate>)
    returns (cands: seq<Candidate>, truncated: bool)
    requires q.Ok() && q.need > 0
    requires Indexed(all, |q.sells|) && StrictlySorted(all, CandidateKey)
    requires MergeOk(q, start, zones, map[], 0, Tail(all, 0))
    ensures Gathered(all, q.sells, q.need, earlyStop, cands, truncated)
  {
    hide MergeOk, Gathered, Tail;
    var cursors, heap := Prime(q, start, zones, Tail(all, 0));
    cands := [];
    var gathered := 0;
    while heap.Keys != {}
      invariant Scanning(all, q.sells, q.need, earlyStop, cands, gathered)
      invariant MergeOk(q, cursors, zones, heap, |cursors|, Tail(all, |cands|))
      decreases |all| - |cands|
    {
      var i := Least(heap);
      PopIsNext(q, cursors, zones, heap, all, |cands|, i);
      ScanStep(all, q.sells, q.need, earlyStop, cands, gathered, heap[i]);
      gathered := gathered + q.sells[heap[i].sellIdx].Remaining();
      cands := cands + [heap[i]];
      if earlyStop && gathered >= q.need {
        return cands, true;
      }
      cursors, heap := Advance(q, cursors, heap, i, zones, Tail(all, |cands| - 1));
    }
    NothingPending(q, cursors, zones, heap, all, |cands|);
    ScanDone(all, q.sells, q.need, earlyStop, cands, gathered);
    truncated := false;
  }

  /** Replace a popped head by the next priced candidate of its cursor, if there is one. */
  method Advance(q: Query, cursors: seq<Cursor>, heap: Heap, i: nat, ghost zones: seq<Zone>, ghost pending: set<Candidate>)
    returns (cursors': seq<Cursor>, heap': Heap)
    requires q.Ok() && i in heap && MergeOk(q, cursors, zones, heap, |cursors|, pending)
    ensures MergeOk(q, cursors', zones, heap', |cursors'|, pending - {heap[i]})
  {
    var next, after := NextPriced(q, cursors[i], zones[i]);
    AdvanceRemovesHead(q, cursors, zones, heap, pending, i, next, after);
    ReheadOk(q, cursors, zones, heap, |cursors|, i, next, after);
    cursors', heap' := cursors[i := after], Rehead(heap, i, next);
  }

  function CursorOf(q: Query, book: ZoneBook): Cursor {
    Cursor(q.FeesFrom(book.zone), q.UpToBid(book.entries))
  }

  /** One cursor per reachable book among the first `n`; cursor `i` reads book `source[i]`. */
  ghost predicate CursorsFor(q: Query, books: seq<ZoneBook>, n: nat, cursors: seq<Cursor>, source: seq<nat>)
    requires n <= |books|
  {
    && |source| == |cursors|
    && (forall i :: 0 <= i < |source| ==> source[i] < n && q.Reachable(books[source[i]].zone)
                                          && cursors[i] == CursorOf(q, books[source[i]]))
    && (forall i, j :: 0 <= i < j < |source| ==> source[i] < source[j])
    && (forall b :: 0 <= b < n && q.Reachable(books[b].zone) ==> b in source)
  }

  ghost function ZonesOf(books: seq<ZoneBook>, source: seq<nat>): seq<Zone>
    requires forall i :: 0 <= i < |source| ==> source[i] < |books|
  {
    seq(|source|, i requires 0 <= i < |source| => books[source[i]].zone)
  }

  lemma CursorsHoldAll(q: Query, books: seq<ZoneBook>, cursors: seq<Cursor>, source: seq<nat>)
    requires q.Ok() && BooksOk(books, q.sells, q.env.now)
    requires CursorsFor(q, books, |books|, cursors, source)
    ensures MergeOk(q, cursors, ZonesOf(books, source), map[], 0, Tail(q.All(), 0))
  {
    var zones := ZonesOf(books, source);
    forall i | 0 <= i < |source|
      ensures EntriesOk(cursors[i].rest, zones[i], q.sells, q.env.now)
      ensures Pending(q, cursors[i].rest, cursors[i].fees)
           == Pending(q, books[source[i]].entries, q.FeesFrom(books[source[i]].zone))
    {
      BidRangeLosesNothing(q, books[source[i]].entries, zones[i], cursors[i].fees);
    }
    BooksOfferAll(q, books);
    forall c
      ensures c in Tail(q.All(), 0) <==> exists i: nat :: Holds(q, cursors, map[], i, c)
    {
      if c in Tail(q.All(), 0) {
        var b :| 0 <= b < |books| && q.Reachable(books[b].zone)
                 && c in Pending(q, books[b].entries, q.FeesFrom(books[b].zone));
        var i :| 0 <= i < |source| && source[i] == b;
        assert Holds(q, cursors, map[], i, c);
      }
      if i: nat :| Holds(q, cursors, map[], i, c) {
        assert c in Pending(q, books[source[i]].entries, q.FeesFrom(books[source[i]].zone));
      }
    }
  }

  /** A cursor for every zone the grid can reach the buyer from. */
  method OpenCursors(q: Query, books: seq<ZoneBook>) returns (cursors: seq<Cursor>, ghost source: seq<nat>)
    ensures CursorsFor(q, books, |books|, cursors, source)
  {
    cursors, source := [], [];
    for b := 0 to |books|
      invariant CursorsFor(q, books, b, cursors, source)
    {
      if q.Reachable(books[b].zone) {
        cursors, source := cursors + [CursorOf(q, books[b])], source + [b];
        assert source[|source| - 1] == b;
      }
    }
  }

  /** Candidates for one buy in fill order, from the zone books: a lone book is drained
      directly, so is a lone reachable one, and several are merged. */
  method GatherCandidates(books: seq<ZoneBook>, sells: seq<FastOrder>, buy: FastOrder, need: int, env: Env,
                          earlyStop: bool)
    returns (cands: seq<Candidate>, truncated: bool)
    requires UniqueIds(sells) && NonNegativePrices(sells) && env.multiplier > 0 && need > 0
    requires BooksOk(books, sells, env.now)
    ensures Gathered(AllCandidates(sells, buy, need, env), sells, need, earlyStop, cands, truncated)
  {
    var q := Query(sells, buy, need, env);
    ghost var all := q.All();
    RankedSorted(sells, |sells|, buy, need, env);
    if |books| == 1 && q.Reachable(books[0].zone) {
      var cursor := CursorOf(q, books[0]);
      LoneCursorHoldsAll(q, books, [cursor], [0]);
      cands, truncated := DrainCursor(q, cursor, earlyStop, books[0].zone, all);
      return;
    }
    var cursors, source := OpenCursors(q, books);
    if |cursors| == 1 {
      LoneCursorHoldsAll(q, books, cursors, source);
      cands, truncated := DrainCursor(q, cursors[0], earlyStop, books[source[0]].zone, all);
    } else {
      CursorsHoldAll(q, books, cursors, source);
      cands, truncated := MergeCursors(q, cursors, earlyStop, ZonesOf(books, source), all);
    }
  }

  lemma LoneCursorHoldsAll(q: Query, books: seq<ZoneBook>, cursors: seq<Cursor>, source: seq<nat>)
    requires q.Ok() && BooksOk(books, q.sells, q.env.now)
    requires CursorsFor(q, books, |books|, cursors, source) && |cursors| == 1
    ensures EntriesOk(cursors[0].rest, books[source[0]].zone, q.sells, q.env.now)
    ensures Pending(q, cursors[0].rest, cursors[0].fees) == Tail(q.All(), 0)
  {
    CursorsHoldAll(q, books, cursors, source);
    forall c | c in Tail(q.All(), 0) ensures c in Pending(q, cursors[0].rest, cursors[0].fees) {
      var i: nat :| Holds(q, cursors, map[], i, c);
    }
    forall c | c in Pending(q, cursors[0].rest, cursors[0].fees) ensures c in Tail(q.All(), 0) {
      assert Holds(q, cursors, map[], 0, c);
    }
  }
}
