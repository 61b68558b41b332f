/** Conservation for every order over whole runs, immediate ones included: a durable fill is the
    energy of the order's settlements plus whatever bookings were lost between the crossing that
    filled it and the cancellation that wrote its fill absolutely. */
module LostFills {
  import opened Options
  import opened FastPrices
  import opened Words
  import opened Orders
  import opened CdaSpec
  import opened CdaSafety
  import opened CdaEngine
  import opened Charges
  import opened OrderPolicy
  import opened Crossing
  import opened LedgerSpec
  import opened LedgerTheorems
  import opened TradingServices
  import opened SweepBalance

  // ---------- What a run loses ----------

  function HeadTrade(s: System, step: Step): TradeRow
    requires step.Book? && Enabled(s, step)
  {
    var batch := s.PhaseOf(step.segment).batch;
    TradeOf(batch.matches[0], batch, step.rates)
  }

  predicate Commits(s: System, step: Step)
    requires step.Book? && Enabled(s, step)
  {
    step.reached && PersistTrade(s.db, HeadTrade(s, step)).Some?
  }

  /** Energy of order `id` whose booking was lost since the matcher's last crossing, after `step`. */
  function NextLost(s: System, step: Step, id: Uuid, lost: int): int
    requires Enabled(s, step)
  {
    if step.CrossOrders? && step.segment.Realtime? then 0
    else if step.Book? && step.segment.Realtime? && !Commits(s, step) then lost + Share(HeadTrade(s, step), id)
    else lost
  }

  /** The step writes the fill of the live order `id` absolutely. */
  predicate Overwrites(s: System, step: Step, id: Uuid)
    requires Enabled(s, step)
  {
    step.Sweep? && step.segment.Realtime? && step.reached && s.matcher.sweep[0].id == id
    && id in s.db.orders && s.db.orders[id].Live()
  }

  ghost function LostSince(trace: seq<System>, steps: seq<Step>, k: nat, id: Uuid): int
    requires IsRun(trace, steps) && k <= |steps|
  {
    if k == 0 then 0 else NextLost(trace[k - 1], steps[k - 1], id, LostSince(trace, steps, k - 1, id))
  }

  /** What had been lost for the order when its fill was overwritten. */
  ghost function Overstated(trace: seq<System>, steps: seq<Step>, k: nat, id: Uuid): int
    requires IsRun(trace, steps) && k <= |steps|
  {
    if k == 0 then 0
    else
      Overstated(trace, steps, k - 1, id)
      + (if Overwrites(trace[k - 1], steps[k - 1], id) then LostSince(trace, steps, k - 1, id) else 0)
  }

  // ---------- The invariant ----------

  /** The fill a cancellation is about to write is the durable one, what is still queued and what
      was lost. */
  ghost predicate Owes(s: System, o: FastOrder, lost: int) {
    && o.id in s.db.orders && s.db.orders[o.id].segment.Realtime?
    && (s.db.orders[o.id].Live() ==> o.filledAmount == s.db.orders[o.id].filledAmount + Queued(s.matcher, o.id) + lost)
  }

  ghost predicate Owed(s: System, id: Uuid, lost: int) {
    && (s.clearing.Booking? ==> s.clearing.sweep == [])
    && (s.matcher.Booking? ==> forall o :: o in s.matcher.sweep && o.id == id ==> Owes(s, o, lost))
  }

  ghost predicate Balanced(s: System, id: Uuid, over: int) {
    if id in s.db.orders then s.db.orders[id].filledAmount == Settled(s.db.trades, id) + over else over == 0
  }

  // ---------- Steps that fill nothing ----------

  /** Orders other than a swept one may end, and otherwise stay. */
  lemma QuietOwes(s: System, r: System, id: Uuid, lost: int)
    requires Owed(s, id, lost)
    requires r.matcher == s.matcher && r.clearing == s.clearing
    requires id in s.db.orders ==>
      && id in r.db.orders && r.db.orders[id].SameOrder(s.db.orders[id])
      && (r.db.orders[id].Live() ==> r.db.orders[id] == s.db.orders[id])
    ensures Owed(r, id, lost)
  {
    if r.matcher.Booking? {
      forall o | o in r.matcher.sweep && o.id == id ensures Owes(r, o, lost) {
        assert Owes(s, o, lost);
      }
    }
  }

  lemma FreshUnsettled(s: System, id: Uuid)
    requires LedgerOk(s) && id !in s.db.orders
    ensures Settled(s.db.trades, id) == 0
  {
    hide OrderOk, PhaseOk, Settled;
    forall t | t in s.db.trades ensures t.buyOrderId != id && t.sellOrderId != id {
      assert TradeOk(s.db.orders, t);
    }
    NothingSettled(s.db.trades, id);
  }

  // ---------- Crossing ----------

  lemma ReadApart(s: System, sells: seq<TradingOrder>, topology: Topology, now: I64)
    requires LedgerOk(s) && Enabled(s, CrossOrders(Realtime, sells, topology, now))
    ensures forall b, l :: b in FastOf(s.matcher.buys) && l in FastOf(sells) ==> b.id != l.id
  {
    hide FromDecimal, Settling, OrderOk, TradeOk, UniqueOrders;
    forall b, l | b in FastOf(s.matcher.buys) && l in FastOf(sells) ensures b.id != l.id {
      FastFromRead(s.matcher.buys, b);
      FastFromRead(sells, l);
      var x :| x in s.matcher.buys && x.id == b.id;
      assert ReadOk(s.db.orders, x, Realtime, s.matcher.epoch);
    }
  }

  /** Each remainder a crossing lists carries the order's durable fill and all its matches. */
  lemma CrossOwes(s: System, sells: seq<TradingOrder>, topology: Topology, now: I64, o: FastOrder)
    requires LedgerOk(s) && Enabled(s, CrossOrders(Realtime, sells, topology, now))
    requires o in Apply(s, CrossOrders(Realtime, sells, topology, now)).matcher.sweep
    ensures Owes(Apply(s, CrossOrders(Realtime, sells, topology, now)), o, 0)
  {
    hide CycleOutcome, RankBuys, FastOf, Settling, BoughtBy, SoldBy, FromDecimal, UniqueIds, LeftBy, LedgerOk, IsListing, Placed;
    var buys := s.matcher.buys;
    ReadsArePlaced(s, Realtime, sells, topology, now);
    FastPlaced(buys);
    FastPlaced(sells);
    FastRunnable(buys, topology, now);
    ReadApart(s, sells, topology, now);
    var fb, fs, env := FastOf(buys), FastOf(sells), CdaEnv(buys, topology, now);
    var c := CycleOutcome(fb, fs, env, false);
    CycleLeaves(fb, fs, env, o);
    if o in Flagged(c.buys, now) {
      FlaggedFrom(c.buys, now, o);
      var t :| t in fb && LeftBy(o, t, c.matches);
      BuyOwes(s, o, t, c.matches);
    } else {
      FlaggedFrom(c.sells, now, o);
      var t :| t in fs && LeftBy(o, t, c.matches);
      SellOwes(s, sells, o, t, c.matches);
    }
  }

  lemma BuyOwes(s: System, o: FastOrder, t: FastOrder, matches: seq<MatchResult>)
    requires LedgerOk(s) && s.matcher.BuysRead? && t in FastOf(s.matcher.buys) && LeftBy(o, t, matches)
    ensures o.id in s.db.orders && s.db.orders[o.id].segment.Realtime?
    ensures s.db.orders[o.id].Live() ==>
      o.filledAmount == s.db.orders[o.id].filledAmount + BoughtBy(matches, o.id) + SoldBy(matches, o.id)
  {
    hide Settling, FromDecimal, BoughtBy, SoldBy, OrderOk, TradeOk, UniqueOrders;
    var buys := s.matcher.buys;
    var i :| 0 <= i < |FastOf(buys)| && FastOf(buys)[i] == t;
    assert t == FastFrom(Settling(buys)[i], i) && Settling(buys)[i] in buys;
    assert ReadOk(s.db.orders, Settling(buys)[i], Realtime, s.matcher.epoch);
  }

  lemma SellOwes(s: System, sells: seq<TradingOrder>, o: FastOrder, t: FastOrder, matches: seq<MatchResult>)
    requires s.matcher.BuysRead? && IsListing(sells, s.db.orders, Sell, Realtime, s.matcher.epoch)
    requires t in FastOf(sells) && LeftBy(o, t, matches)
    ensures o.id in s.db.orders && s.db.orders[o.id].segment.Realtime?
    ensures o.filledAmount == s.db.orders[o.id].filledAmount + BoughtBy(matches, o.id) + SoldBy(matches, o.id)
  {
    hide Settling, FromDecimal, BoughtBy, SoldBy, UniqueOrders;
    var i :| 0 <= i < |FastOf(sells)| && FastOf(sells)[i] == t;
    assert t == FastFrom(Settling(sells)[i], i) && Settling(sells)[i] in sells;
  }

  lemma CrossKeepsOwed(s: System, step: Step, id: Uuid, lost: int)
    requires LedgerOk(s) && step.CrossOrders? && Enabled(s, step) && Owed(s, id, lost)
    ensures Owed(Apply(s, step), id, NextLost(s, step, id, lost))
  {
    hide LedgerOk, Owes, SweepList, Cross;
    var r := Apply(s, step);
    if step.segment.Realtime? {
      forall o | o in r.matcher.sweep && o.id == id ensures Owes(r, o, 0) {
        CrossOwes(s, step.sells, step.topology, step.now, o);
      }
    } else {
      QuietClearing(s, r, id, lost);
    }
  }

  lemma QuietClearing(s: System, r: System, id: Uuid, lost: int)
    requires Owed(s, id, lost) && r.matcher == s.matcher && r.db.orders == s.db.orders
    requires r.clearing.Booking? ==> r.clearing.sweep == []
    ensures Owed(r, id, lost)
  {
    if r.matcher.Booking? {
      forall o | o in r.matcher.sweep && o.id == id ensures Owes(r, o, lost) {
        assert Owes(s, o, lost);
      }
    }
  }

  // ---------- Booking ----------

  /** What booking the head match does to one order's row and settlements. */
  ghost predicate BooksOne(s: System, r: System, t: TradeRow, id: Uuid, committed: bool) {
    && (id in r.db.orders <==> id in s.db.orders)
    && Settled(r.db.trades, id) == Settled(s.db.trades, id) + (if committed then Share(t, id) else 0)
    && (id in s.db.orders ==>
      && r.db.orders[id].SameOrder(s.db.orders[id])
      && r.db.orders[id].filledAmount == s.db.orders[id].filledAmount + (if committed then Share(t, id) else 0)
      && (r.db.orders[id].Live() ==> s.db.orders[id].Live()))
  }

  lemma BookMoves(s: System, step: Step, id: Uuid)
    requires LedgerOk(s) && step.Book? && Enabled(s, step)
    ensures BooksOne(s, Apply(s, step), HeadTrade(s, step), id, Commits(s, step))
    ensures var t := HeadTrade(s, step);
      t.buyOrderId in s.db.orders && t.sellOrderId in s.db.orders
      && s.db.orders[t.buyOrderId].segment == step.segment == s.db.orders[t.sellOrderId].segment
  {
    HeadIsOk(s, step);
    var t := HeadTrade(s, step);
    TradeNamesRows(s.db.orders, t);
    AttemptMoves(s.db, t, step.reached, id);
    BookWrites(s, step);
    hide LedgerOk, TradeOk, PersistTrade, TradeOf, Settled, Attempt, Apply, Enabled, HeadTrade;
  }

  lemma HeadIsOk(s: System, step: Step)
    requires LedgerOk(s) && step.Book? && Enabled(s, step)
    ensures TradeOk(s.db.orders, HeadTrade(s, step))
    ensures var t := HeadTrade(s, step);
      t.buyOrderId in s.db.orders && t.sellOrderId in s.db.orders
      && s.db.orders[t.buyOrderId].segment == step.segment == s.db.orders[t.sellOrderId].segment
  {
    hide OrderOk, PhaseOk, TradeOf;
    HeadTradeOk(s.db.orders, s.PhaseOf(step.segment), step.segment, step.rates);
    TradeNamesRows(s.db.orders, HeadTrade(s, step));
    hide TradeOk;
  }

  lemma BookWrites(s: System, step: Step)
    requires step.Book? && Enabled(s, step)
    ensures Apply(s, step).db == Attempt(s.db, HeadTrade(s, step), step.reached)
  {
    hide Attempt, TradeOf;
  }

  lemma TradeNamesRows(orders: OrderRows, t: TradeRow)
    requires TradeOk(orders, t)
    ensures t.buyOrderId in orders && t.sellOrderId in orders
  {
    hide FromDecimal;
  }

  lemma QueueShrinks(s: System, step: Step, id: Uuid)
    requires step.Book? && step.segment.Realtime? && Enabled(s, step)
    ensures Apply(s, step).matcher.Booking?
    ensures Queued(s.matcher, id) == Share(HeadTrade(s, step), id) + Queued(Apply(s, step).matcher, id)
  {
    QueuedHead(s.matcher.batch.matches, id);
    TradeNames(s.matcher.batch.matches[0], s.matcher.batch, step.rates);
    hide BoughtBy, SoldBy, Attempt, TradeOf;
  }

  lemma BookKeepsOwed(s: System, step: Step, id: Uuid, lost: int)
    requires LedgerOk(s) && step.Book? && Enabled(s, step) && Owed(s, id, lost)
    ensures Owed(Apply(s, step), id, NextLost(s, step, id, lost))
  {
    var r := Apply(s, step);
    BookMoves(s, step, id);
    BookPhases(s, step);
    if step.segment.Realtime? {
      QueueShrinks(s, step, id);
    }
    hide LedgerOk, Apply, Enabled, HeadTrade, Commits, Settled, Queued;
    if r.matcher.Booking? {
      forall o | o in r.matcher.sweep && o.id == id ensures Owes(r, o, NextLost(s, step, id, lost)) {
        assert Owes(s, o, lost);
        assert step.segment.Interval? ==> Share(HeadTrade(s, step), id) == 0;
      }
    }
  }

  lemma BookPhases(s: System, step: Step)
    requires step.Book? && Enabled(s, step)
    ensures var r := Apply(s, step);
      && (step.segment.Realtime? ==> s.matcher.Booking? && r.matcher.Booking? && r.matcher.sweep == s.matcher.sweep && r.clearing == s.clearing)
      && (step.segment.Interval? ==> s.clearing.Booking? && r.clearing.Booking? && r.clearing.sweep == s.clearing.sweep && r.matcher == s.matcher)
  {
    hide Attempt, TradeOf;
  }

  lemma BookKeepsBalance(s: System, step: Step, id: Uuid, over: int)
    requires LedgerOk(s) && step.Book? && Enabled(s, step) && Balanced(s, id, over)
    ensures Balanced(Apply(s, step), id, over)
  {
    BookMoves(s, step, id);
    hide LedgerOk, Apply, Settled, Share;
  }

  // ---------- Cancelling ----------

  lemma SweepKeepsOwed(s: System, step: Step, id: Uuid, lost: int)
    requires step.Sweep? && Enabled(s, step) && Owed(s, id, lost)
    ensures Owed(Apply(s, step), id, lost)
  {
    var r := Apply(s, step);
    if r.matcher.Booking? {
      forall o | o in r.matcher.sweep && o.id == id ensures Owes(r, o, lost) {
        assert o in s.matcher.sweep;
        assert Owes(s, o, lost);
      }
    }
  }

  /** The write that can make a fill and its settlements differ, by exactly what was lost. */
  lemma SweepKeepsBalance(s: System, step: Step, id: Uuid, lost: int, over: int)
    requires LedgerOk(s) && step.Sweep? && Enabled(s, step) && Owed(s, id, lost) && Balanced(s, id, over)
    ensures Balanced(Apply(s, step), id, over + if Overwrites(s, step, id) then lost else 0)
  {
    if Overwrites(s, step, id) {
      var o := s.matcher.sweep[0];
      assert o in s.matcher.sweep && Owes(s, o, lost);
      assert Queued(s.matcher, id) == 0;
      hide LedgerOk;
      assert Apply(s, step).db.orders[id].filledAmount == o.filledAmount;
    }
  }

  // ---------- Every run ----------

  lemma StepKeepsOwed(s: System, step: Step, id: Uuid, lost: int)
    requires LedgerOk(s) && Enabled(s, step) && Owed(s, id, lost)
    ensures Owed(Apply(s, step), id, NextLost(s, step, id, lost))
  {
    match step {
      case Book(_, _, _) => BookKeepsOwed(s, step, id, lost);
      case CrossOrders(_, _, _, _) => CrossKeepsOwed(s, step, id, lost);
      case Sweep(_, _) => SweepKeepsOwed(s, step, id, lost);
      case ReadBuys(segment, epoch, buys) =>
        hide LedgerOk, IsListing, Owes;
        if segment.Interval? {
          QuietClearing(s, Apply(s, step), id, lost);
        }
      case EndCycle(segment) =>
        hide LedgerOk, Owes;
        if segment.Interval? {
          QuietClearing(s, Apply(s, step), id, lost);
        }
      case _ =>
        hide LedgerOk;
        QuietOwes(s, Apply(s, step), id, lost);
    }
  }

  lemma StepKeepsBalance(s: System, step: Step, id: Uuid, lost: int, over: int)
    requires LedgerOk(s) && Enabled(s, step) && Owed(s, id, lost) && Balanced(s, id, over)
    ensures Balanced(Apply(s, step), id, over + if Overwrites(s, step, id) then lost else 0)
  {
    match step {
      case Book(_, _, _) => BookKeepsBalance(s, step, id, over);
      case Sweep(_, _) => SweepKeepsBalance(s, step, id, lost, over);
      case Place(o) =>
        if id !in s.db.orders {
          FreshUnsettled(s, id);
        }
        hide LedgerOk, Settled;
      case _ =>
        hide LedgerOk, Settled;
    }
  }

  lemma {:induction false} RunBalances(trace: seq<System>, steps: seq<Step>, k: nat, id: Uuid)
    requires IsRun(trace, steps) && trace[0] == Empty && k <= |steps|
    ensures Owed(trace[k], id, LostSince(trace, steps, k, id)) && Balanced(trace[k], id, Overstated(trace, steps, k, id))
  {
    if k > 0 {
      RunBalances(trace, steps, k - 1, id);
      RunKeepsLedger(trace, steps, k - 1);
      hide LedgerOk, Owed, Balanced, Apply, Enabled, NextLost, Overwrites;
      StepKeepsOwed(trace[k - 1], steps[k - 1], id, LostSince(trace, steps, k - 1, id));
      StepKeepsBalance(trace[k - 1], steps[k - 1], id, LostSince(trace, steps, k - 1, id), Overstated(trace, steps, k - 1, id));
    }
  }

  /** Conservation for orders of every kind: at every moment of every run, whatever interleaves,
      a durable fill is the energy of the order's settlements plus what had been lost when a
      cancellation overwrote it. */
  lemma FillsAreAccounted(trace: seq<System>, steps: seq<Step>, k: nat, id: Uuid)
    requires IsRun(trace, steps) && trace[0] == Empty && k <= |steps| && id in trace[k].db.orders
    ensures trace[k].db.orders[id].filledAmount == Settled(trace[k].db.trades, id) + Overstated(trace, steps, k, id)
  {
    hide Owed;
    RunBalances(trace, steps, k, id);
  }

  // ---------- When nothing was lost ----------

  predicate Crosses(step: Step) { step.CrossOrders? && step.segment.Realtime? }

  /** The step loses a booking of order `id`. */
  predicate Loses(s: System, step: Step, id: Uuid)
    requires Enabled(s, step)
  {
    step.Book? && step.segment.Realtime? && !Commits(s, step) && Involves(s.matcher.batch.matches[0], id)
  }

  /** Every booking of the order since the last crossing before moment `k` was committed. */
  ghost predicate NothingLost(trace: seq<System>, steps: seq<Step>, k: nat, id: Uuid)
    requires IsRun(trace, steps) && k <= |steps|
  {
    forall i :: 0 <= i < k && Loses(trace[i], steps[i], id) ==> exists c :: i < c < k && Crosses(steps[c])
  }

  lemma LosesShare(s: System, step: Step, id: Uuid)
    requires LedgerOk(s) && step.Book? && step.segment.Realtime? && Enabled(s, step)
    ensures 0 <= Share(HeadTrade(s, step), id)
    ensures 0 < Share(HeadTrade(s, step), id) <==> Involves(s.matcher.batch.matches[0], id)
  {
    HeadTradeOk(s.db.orders, s.matcher, Realtime, step.rates);
    var t := HeadTrade(s, step);
    TradeNames(s.matcher.batch.matches[0], s.matcher.batch, step.rates);
    hide LedgerOk, TradeOf;
    TradeEnergy(s.db.orders, t);
    hide TradeOk;
  }

  lemma TradeEnergy(orders: OrderRows, t: TradeRow)
    requires TradeOk(orders, t)
    ensures t.energy > 0
  {
    hide FromDecimal;
  }

  lemma {:induction false} LostExactly(trace: seq<System>, steps: seq<Step>, k: nat, id: Uuid)
    requires IsRun(trace, steps) && trace[0] == Empty && k <= |steps|
    ensures 0 <= LostSince(trace, steps, k, id)
    ensures LostSince(trace, steps, k, id) == 0 <==> NothingLost(trace, steps, k, id)
  {
    hide LedgerOk, Apply, Enabled, HeadTrade, Commits, Involves, Share;
    if k > 0 {
      var s, step := trace[k - 1], steps[k - 1];
      LostExactly(trace, steps, k - 1, id);
      RunKeepsLedger(trace, steps, k - 1);
      if step.Book? && step.segment.Realtime? {
        LosesShare(s, step, id);
      }
      if Crosses(step) {
        forall i | 0 <= i < k && Loses(trace[i], steps[i], id) ensures exists c :: i < c < k && Crosses(steps[c]) {
          assert Crosses(steps[k - 1]);
        }
      } else if Loses(s, step, id) {
        assert !NothingLost(trace, steps, k, id);
      } else {
        LostUnchanged(trace, steps, k, id);
      }
    }
  }

  lemma LostUnchanged(trace: seq<System>, steps: seq<Step>, k: nat, id: Uuid)
    requires IsRun(trace, steps) && 0 < k <= |steps|
    requires !Crosses(steps[k - 1]) && !Loses(trace[k - 1], steps[k - 1], id)
    ensures NothingLost(trace, steps, k, id) <==> NothingLost(trace, steps, k - 1, id)
  {
    hide Apply, Enabled, Loses, Crosses;
    if NothingLost(trace, steps, k, id) {
      forall i | 0 <= i < k - 1 && Loses(trace[i], steps[i], id) ensures exists c :: i < c < k - 1 && Crosses(steps[c]) {
        var c :| i < c < k && Crosses(steps[c]);
      }
    }
    if NothingLost(trace, steps, k - 1, id) {
      forall i | 0 <= i < k && Loses(trace[i], steps[i], id) ensures exists c :: i < c < k && Crosses(steps[c]) {
        var c :| i < c < k - 1 && Crosses(steps[c]);
      }
    }
  }

  lemma {:induction false} OverstatedExactly(trace: seq<System>, steps: seq<Step>, k: nat, id: Uuid)
    requires IsRun(trace, steps) && trace[0] == Empty && k <= |steps|
    ensures 0 <= Overstated(trace, steps, k, id)
    ensures Overstated(trace, steps, k, id) == 0
      <==> forall j :: 0 <= j < k && Overwrites(trace[j], steps[j], id) ==> NothingLost(trace, steps, j, id)
  {
    hide Apply, Enabled, Overwrites, NothingLost, NextLost;
    if k > 0 {
      OverstatedExactly(trace, steps, k - 1, id);
      LostExactly(trace, steps, k - 1, id);
    }
  }

  /** The exact condition: at every moment of every run a fill equals its settlements if and only
      if no cancellation overwrote it after a booking of that order had been lost in the same
      cycle; otherwise the fill is ahead. */
  lemma BalancedExactly(trace: seq<System>, steps: seq<Step>, k: nat, id: Uuid)
    requires IsRun(trace, steps) && trace[0] == Empty && k <= |steps| && id in trace[k].db.orders
    ensures var filled, settled := trace[k].db.orders[id].filledAmount, Settled(trace[k].db.trades, id);
      && settled <= filled
      && (filled == settled
          <==> forall j :: 0 <= j < k && Overwrites(trace[j], steps[j], id) ==> NothingLost(trace, steps, j, id))
  {
    hide Apply, Enabled, Overwrites, NothingLost, Settled;
    FillsAreAccounted(trace, steps, k, id);
    OverstatedExactly(trace, steps, k, id);
  }
}
