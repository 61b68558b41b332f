/** A sequential cycle of either worker is a run of the whole system: its reads, its bookings
    and its cancellations are the system's own steps, one after the other. */
module CycleRuns {
  import opened Options
  import opened FastPrices
  import opened Words
  import opened Orders
  import opened Charges
  import opened OrderPolicy
  import opened Crossing
  import opened LedgerSpec
  import opened LedgerTheorems
  import opened TradingServices

  /** A run so far: the states it went through and the steps it took. */
  datatype History = History(trace: seq<System>, steps: seq<Step>) {
    ghost predicate Valid() { IsRun(trace, steps) }

    function Last(): System
      requires trace != []
    {
      trace[|trace| - 1]
    }

    ghost predicate EndsIn(s: System) { Valid() && Last() == s }

    ghost predicate Continues(earlier: History) {
      earlier.trace <= trace && earlier.steps <= steps
    }
  }

  lemma Extend(h: History, step: Step) returns (r: History)
    requires h.Valid() && Enabled(h.Last(), step)
    ensures r.EndsIn(Apply(h.Last(), step)) && r.Continues(h)
  {
    hide Enabled, Apply;
    r := History(h.trace + [Apply(h.Last(), step)], h.steps + [step]);
    forall k | 0 <= k < |r.steps| ensures Enabled(r.trace[k], r.steps[k]) && r.trace[k + 1] == Apply(r.trace[k], r.steps[k]) {
      if k < |h.steps| {
        assert Enabled(h.trace[k], h.steps[k]) && h.trace[k + 1] == Apply(h.trace[k], h.steps[k]);
      }
    }
  }

  lemma {:induction false} BookingRun(h: History, db: Db, segment: MarketSegment, phase: Phase, n: nat, rates: ChargeRates, booked: nat -> bool)
    returns (r: History)
    requires phase.Booking? && AllDescribed(phase.batch) && n <= |phase.batch.matches|
    requires h.EndsIn(AfterBooking(db, segment, phase, 0, rates, booked))
    ensures r.EndsIn(AfterBooking(db, segment, phase, n, rates, booked)) && r.Continues(h)
  {
    r := h;
    if n > 0 {
      hide AfterBooking, Enabled, Apply;
      var before := BookingRun(h, db, segment, phase, n - 1, rates, booked);
      BookingStep(db, segment, phase, n - 1, rates, booked);
      r := Extend(before, Book(segment, rates, booked(n - 1)));
    }
  }

  /** The state with the remainders from `k` on still to cancel. */
  function Sweeping(db: Db, segment: MarketSegment, phase: Phase, k: nat): System
    requires phase.Booking? && k <= |phase.sweep|
  {
    Resting(db).WithPhase(segment, phase.(sweep := phase.sweep[k..]))
  }

  lemma {:induction false} SweepRun(h: History, db: Db, segment: MarketSegment, phase: Phase, k: nat, reached: nat -> bool)
    returns (r: History)
    requires phase.Booking? && phase.batch.matches == [] && k <= |phase.sweep|
    requires h.EndsIn(Sweeping(db, segment, phase, k))
    ensures r.EndsIn(Resting(Db(SweepUntil(db.orders, phase.sweep, k, reached), db.trades))) && r.Continues(h)
    decreases |phase.sweep| - k
  {
    var s := Sweeping(db, segment, phase, k);
    if k == |phase.sweep| || !reached(k) {
      r := Extend(h, EndCycle(segment));
    } else {
      assert phase.sweep[k..][1..] == phase.sweep[k + 1..];
      var next := Extend(h, Step.Sweep(segment, true));
      r := SweepRun(next, Db(SweepOne(db.orders, phase.sweep[k]), db.trades), segment, phase, k + 1, reached);
    }
  }

  /** From any run that ends between cycles, a whole cycle continues it, with any of its writes
      failing. */
  lemma CycleIsARun(h: History, db: Db, segment: MarketSegment, epoch: Uuid, buys: seq<TradingOrder>, sells: seq<TradingOrder>,
                    topology: Topology, now: I64, rates: ChargeRates, booked: nat -> bool, swept: nat -> bool)
    returns (r: History)
    requires h.EndsIn(Resting(db))
    requires IsListing(buys, db.orders, Buy, segment, epoch) && IsListing(sells, db.orders, Sell, segment, epoch)
    requires AllDescribed(BookingOf(segment, buys, sells, topology, now).batch)
    ensures r.EndsIn(Resting(CycleWrites(db, BookingOf(segment, buys, sells, topology, now), rates, booked, swept))) && r.Continues(h)
  {
    hide BookingOf, IsListing, PersistAll, SweepUntil;
    var read := Extend(h, ReadBuys(segment, epoch, buys));
    var crossed := Extend(read, CrossOrders(segment, sells, topology, now));
    var phase := BookingOf(segment, buys, sells, topology, now);
    BookingIsBooking(segment, buys, sells, topology, now);
    var n := |phase.batch.matches|;
    StartsBooking(db, segment, phase, rates, booked);
    var done := BookingRun(crossed, db, segment, phase, n, rates, booked);
    var after := PersistAll(db, phase.batch, n, rates, booked);
    var left := phase.(batch := phase.batch.(matches := []));
    assert phase.batch.matches[n..] == [];
    assert left.(sweep := left.sweep[0..]) == left;
    r := SweepRun(done, after, segment, left, 0, swept);
  }

  lemma StartsBooking(db: Db, segment: MarketSegment, phase: Phase, rates: ChargeRates, booked: nat -> bool)
    requires phase.Booking? && AllDescribed(phase.batch)
    ensures AfterBooking(db, segment, phase, 0, rates, booked) == Resting(db).WithPhase(segment, phase)
  {
    assert phase.batch.matches[0..] == phase.batch.matches;
  }
}
