/** Exactly when a zone clears the most any single price allows, whatever the sizes: when no
    user's own bid reaches their own ask. */
module AuctionExactness {
  import opened Options
  import opened FastPrices
  import opened Words
  import opened Orders
  import opened CdaSpec
  import opened CdaSafety
  import opened AuctionSpec
  import opened AuctionTheorems
  import opened AuctionSafety

  /** The same orders at other sizes. */
  ghost predicate Resized(before: seq<FastOrder>, after: seq<FastOrder>) {
    |after| == |before|
    && forall k :: 0 <= k < |before| ==>
         after[k].(energyAmount := before[k].energyAmount, filledAmount := before[k].filledAmount) == before[k]
  }

  /** At every price the cleared volume is what the shorter side wants there, or more. */
  ghost predicate ClearsTheMost(buyIx: seq<nat>, sellIx: seq<nat>, buys: seq<FastOrder>, sells: seq<FastOrder>)
    requires Within(buyIx, |buys|) && Within(sellIx, |sells|)
  {
    forall p: int :: FillVolume(ClearZone(buyIx, sellIx, buys, sells).fills)
      >= Min(Wanted(buys, buyIx, p, true), Wanted(sells, sellIx, p, false))
  }

  /** So it is for every choice of sizes in whole units. */
  ghost predicate ClearsTheMostAtAnySize(buyIx: seq<nat>, sellIx: seq<nat>, buys: seq<FastOrder>, sells: seq<FastOrder>) {
    forall buys', sells' ::
      Resized(buys, buys') && Resized(sells, sells') && ZoneLists(buyIx, sellIx, buys', sells')
      && WholeUnits(Sweep(buys', sells', [], None), buyIx, sellIx)
      ==> ClearsTheMost(buyIx, sellIx, buys', sells')
  }

  /** Every order one unit, but `k` as large as `big`. */
  function Sized(orders: seq<FastOrder>, k: nat, big: int): (r: seq<FastOrder>)
    ensures Resized(orders, r)
    ensures forall i :: 0 <= i < |orders| ==> r[i].Remaining() == if i == k then big else MIN_TRADE_AMOUNT
  {
    seq(|orders|, i requires 0 <= i < |orders| =>
      orders[i].(energyAmount := if i == k then big else MIN_TRADE_AMOUNT, filledAmount := 0))
  }

  lemma ResizedUnique(before: seq<FastOrder>, after: seq<FastOrder>)
    requires Resized(before, after) && UniqueIds(before)
    ensures UniqueIds(after)
  {
    forall i, j | 0 <= i < j < |after| ensures after[i].id != after[j].id {
      assert before[i].id == after[i].id && before[j].id == after[j].id;
    }
  }

  // ---------- The orders other than the self-crossing pair bound the volume ----------

  /** Energy filled on the listed orders other than `skip`. */
  function OthersFilled(fills: seq<Fill>, ix: seq<nat>, skip: nat, demand: bool): int {
    if ix == [] then 0
    else
      var k := ix[|ix| - 1];
      OthersFilled(fills, ix[..|ix| - 1], skip, demand) + (if k == skip then 0 else FilledOn(fills, k, demand))
  }

  lemma {:induction false} OthersFilledNothing(ix: seq<nat>, skip: nat, demand: bool)
    ensures OthersFilled([], ix, skip, demand) == 0
  {
    if ix != [] {
      OthersFilledNothing(ix[..|ix| - 1], skip, demand);
    }
  }

  lemma {:induction false} OthersFilledNext(fills: seq<Fill>, ix: seq<nat>, skip: nat, demand: bool)
    requires fills != [] && Distinct(ix)
    ensures var n := |fills| - 1; var k := if demand then fills[n].buy else fills[n].sell;
      OthersFilled(fills, ix, skip, demand) == OthersFilled(fills[..n], ix, skip, demand)
        + (if k in ix && k != skip then fills[n].amount else 0)
    decreases |ix|
  {
    if ix != [] {
      var m := |ix| - 1;
      OthersFilledNext(fills, ix[..m], skip, demand);
      assert ix == ix[..m] + [ix[m]];
    }
  }

  /** When every fill names some order other than the pair, the volume is at most what those
      orders were filled. */
  lemma {:induction false} VolumeOfOthers(fills: seq<Fill>, bi: seq<nat>, si: seq<nat>, x: nat, y: nat)
    requires Distinct(bi) && Distinct(si)
    requires forall k :: 0 <= k < |fills| ==>
      && fills[k].buy in bi && fills[k].sell in si && fills[k].amount >= 0 && (fills[k].buy != x || fills[k].sell != y)
    ensures FillVolume(fills) <= OthersFilled(fills, bi, x, true) + OthersFilled(fills, si, y, false)
  {
    hide OthersFilled;
    if fills == [] {
      OthersFilledNothing(bi, x, true);
      OthersFilledNothing(si, y, false);
    } else {
      VolumeOfOthers(fills[..|fills| - 1], bi, si, x, y);
      OthersFilledNext(fills, bi, x, true);
      OthersFilledNext(fills, si, y, false);
    }
  }

  lemma {:induction false} OthersAreSmall(fills: seq<Fill>, ix: seq<nat>, skip: nat, demand: bool)
    requires forall k :: k in ix && k != skip ==> FilledOn(fills, k, demand) <= MIN_TRADE_AMOUNT
    ensures OthersFilled(fills, ix, skip, demand) <= |ix| * MIN_TRADE_AMOUNT
    decreases |ix|
  {
    hide FilledOn;
    if ix != [] {
      OthersAreSmall(fills, ix[..|ix| - 1], skip, demand);
    }
  }

  // ---------- What the pair wants ----------

  lemma {:induction false} WantedAtLeast(orders: seq<FastOrder>, ix: seq<nat>, p: int, demand: bool, k: nat)
    requires Within(ix, |orders|) && k < |orders| && Accepts(orders[k], p, demand)
    requires forall i :: 0 <= i < |orders| ==> orders[i].Remaining() >= 0
    ensures 0 <= Wanted(orders, ix, p, demand)
    ensures k in ix ==> orders[k].Remaining() <= Wanted(orders, ix, p, demand)
    decreases |ix|
  {
    if ix != [] {
      var n := |ix| - 1;
      WantedAtLeast(orders, ix[..n], p, demand, k);
      assert ix == ix[..n] + [ix[n]];
    }
  }

  /** Some user's own bid reaches their own ask. */
  ghost predicate SelfCross(x: nat, y: nat, buyIx: seq<nat>, sellIx: seq<nat>, buys: seq<FastOrder>, sells: seq<FastOrder>) {
    && x in buyIx && y in sellIx && x < |buys| && y < |sells|
    && buys[x].userId == sells[y].userId && buys[x].price >= sells[y].price
  }

  ghost predicate Listed(buyIx: seq<nat>, sellIx: seq<nat>, buys: seq<FastOrder>, sells: seq<FastOrder>) {
    && UniqueIds(buys) && UniqueIds(sells) && Within(buyIx, |buys|) && Within(sellIx, |sells|)
    && Distinct(buyIx) && Distinct(sellIx)
  }

  function Enough(buyIx: seq<nat>, sellIx: seq<nat>): int { (|buyIx| + |sellIx| + 1) * MIN_TRADE_AMOUNT }

  lemma SizedReady(x: nat, y: nat, buyIx: seq<nat>, sellIx: seq<nat>, buys: seq<FastOrder>, sells: seq<FastOrder>)
    requires Listed(buyIx, sellIx, buys, sells)
    ensures var big := Enough(buyIx, sellIx); var buys', sells' := Sized(buys, x, big), Sized(sells, y, big);
      && ZoneLists(buyIx, sellIx, buys', sells') && WholeUnits(Sweep(buys', sells', [], None), buyIx, sellIx)
      && big >= MIN_TRADE_AMOUNT
  {
    var big := Enough(buyIx, sellIx);
    var buys', sells' := Sized(buys, x, big), Sized(sells, y, big);
    assert big % MIN_TRADE_AMOUNT == 0 && big >= MIN_TRADE_AMOUNT;
    hide Enough, Sized;
    ResizedUnique(buys, buys');
    ResizedUnique(sells, sells');
  }

  /** A self-crossing pair larger than all other orders together keeps the zone from its volume
      at the pair's ask: each fill names one of the others. */
  lemma SelfCrossFallsShort(x: nat, y: nat, buyIx: seq<nat>, sellIx: seq<nat>, buys: seq<FastOrder>, sells: seq<FastOrder>)
    requires Listed(buyIx, sellIx, buys, sells) && SelfCross(x, y, buyIx, sellIx, buys, sells)
    ensures var big := Enough(buyIx, sellIx); var buys', sells' := Sized(buys, x, big), Sized(sells, y, big);
      var p := sells[y].price;
      FillVolume(ClearZone(buyIx, sellIx, buys', sells').fills)
        < Min(Wanted(buys', buyIx, p, true), Wanted(sells', sellIx, p, false))
  {
    hide ClearZone, FillVolume, FilledOn, Wanted, OthersFilled;
    var big := Enough(buyIx, sellIx);
    var buys', sells' := Sized(buys, x, big), Sized(sells, y, big);
    SizedReady(x, y, buyIx, sellIx, buys, sells);
    assert buys'[x].Remaining() == big && sells'[y].Remaining() == big;
    WantedAtLeast(buys', buyIx, sells[y].price, true, x);
    WantedAtLeast(sells', sellIx, sells[y].price, false, y);
    var fills := ClearZone(buyIx, sellIx, buys', sells').fills;
    forall k | 0 <= k < |fills|
      ensures fills[k].buy in buyIx && fills[k].sell in sellIx && fills[k].amount >= 0 && (fills[k].buy != x || fills[k].sell != y)
    {
      ZoneIsRational(buyIx, sellIx, buys', sells', k);
    }
    VolumeOfOthers(fills, buyIx, sellIx, x, y);
    OthersFillSmall(x, y, buyIx, sellIx, buys', sells');
  }

  lemma OthersFillSmall(x: nat, y: nat, buyIx: seq<nat>, sellIx: seq<nat>, buys: seq<FastOrder>, sells: seq<FastOrder>)
    requires Listed(buyIx, sellIx, buys, sells)
    requires forall k :: 0 <= k < |buys| && k != x ==> buys[k].Remaining() == MIN_TRADE_AMOUNT
    requires forall k :: 0 <= k < |sells| && k != y ==> sells[k].Remaining() == MIN_TRADE_AMOUNT
    ensures var fills := ClearZone(buyIx, sellIx, buys, sells).fills;
      && OthersFilled(fills, buyIx, x, true) <= |buyIx| * MIN_TRADE_AMOUNT
      && OthersFilled(fills, sellIx, y, false) <= |sellIx| * MIN_TRADE_AMOUNT
  {
    hide ClearZone, FilledOn, OthersFilled;
    var r := ClearZone(buyIx, sellIx, buys, sells);
    ZoneBooks(buyIx, sellIx, buys, sells);
    forall k | k in buyIx && k != x ensures FilledOn(r.fills, k, true) <= MIN_TRADE_AMOUNT {
      assert FilledWithin(buys[k], r.buys[k]);
    }
    forall k | k in sellIx && k != y ensures FilledOn(r.fills, k, false) <= MIN_TRADE_AMOUNT {
      assert FilledWithin(sells[k], r.sells[k]);
    }
    OthersAreSmall(r.fills, buyIx, x, true);
    OthersAreSmall(r.fills, sellIx, y, false);
  }

  /** Users and prices decide, not sizes. */
  lemma ResizedKeepsQuotes(buyIx: seq<nat>, sellIx: seq<nat>, buys: seq<FastOrder>, sells: seq<FastOrder>,
                           buys': seq<FastOrder>, sells': seq<FastOrder>)
    requires Within(buyIx, |buys|) && Within(sellIx, |sells|) && Resized(buys, buys') && Resized(sells, sells')
    requires NoSelfCross(Sweep(buys, sells, [], None), buyIx, sellIx)
    ensures NoSelfCross(Sweep(buys', sells', [], None), buyIx, sellIx)
  {
    forall a, b | 0 <= a < |buyIx| && 0 <= b < |sellIx| && buys'[buyIx[a]].userId == sells'[sellIx[b]].userId
      ensures buys'[buyIx[a]].price < sells'[sellIx[b]].price
    {
      assert buys[buyIx[a]].userId == buys'[buyIx[a]].userId && sells[sellIx[b]].userId == sells'[sellIx[b]].userId;
      assert buys[buyIx[a]].price == buys'[buyIx[a]].price && sells[sellIx[b]].price == sells'[sellIx[b]].price;
    }
  }

  /** With users, prices, arrivals and ids fixed, the zone clears the most any single price
      allows at every choice of sizes if and only if no user's own bid reaches their own ask. */
  lemma VolumeIsOptimalExactly(buyIx: seq<nat>, sellIx: seq<nat>, buys: seq<FastOrder>, sells: seq<FastOrder>)
    requires Listed(buyIx, sellIx, buys, sells)
    ensures ClearsTheMostAtAnySize(buyIx, sellIx, buys, sells) <==> NoSelfCross(Sweep(buys, sells, [], None), buyIx, sellIx)
  {
    hide ClearZone, FillVolume, Wanted, WholeUnits, Resized, UniqueIds, Sized, Enough;
    if NoSelfCross(Sweep(buys, sells, [], None), buyIx, sellIx) {
      forall buys', sells'
        | Resized(buys, buys') && Resized(sells, sells') && ZoneLists(buyIx, sellIx, buys', sells')
          && WholeUnits(Sweep(buys', sells', [], None), buyIx, sellIx)
        ensures ClearsTheMost(buyIx, sellIx, buys', sells')
      {
        ResizedKeepsQuotes(buyIx, sellIx, buys, sells, buys', sells');
        forall p: int ensures FillVolume(ClearZone(buyIx, sellIx, buys', sells').fills)
          >= Min(Wanted(buys', buyIx, p, true), Wanted(sells', sellIx, p, false))
        {
          ZoneVolumeIsOptimal(buyIx, sellIx, buys', sells', p);
        }
      }
    } else {
      var a, b :| 0 <= a < |buyIx| && 0 <= b < |sellIx| && buys[buyIx[a]].userId == sells[sellIx[b]].userId
        && buys[buyIx[a]].price >= sells[sellIx[b]].price;
      var x, y, big := buyIx[a], sellIx[b], Enough(buyIx, sellIx);
      SelfCrossFallsShort(x, y, buyIx, sellIx, buys, sells);
      SizedReady(x, y, buyIx, sellIx, buys, sells);
      assert !ClearsTheMost(buyIx, sellIx, Sized(buys, x, big), Sized(sells, y, big));
    }
  }
}
