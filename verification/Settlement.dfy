/** The settlement service: rows updated one write at a time, against `SettlementSpec`. */
module Settlement {
  import opened Options
  import opened SettlementSpec
  import opened SettlementTheorems

  lemma EachOfNone(s: State, w: World)
    ensures SettleEach(s, [], w) == (s, [])
  {
  }

  class SettlementService {
    const world: World
    /** The repository's rows. */
    var rows: Rows
    /** What the chain has minted, and how many external calls were made. */
    var mints: multiset<Id>
    var calls: nat

    ghost function Current(): State
      reads this
    {
      State(rows, mints, calls)
    }

    constructor (world: World, rows: Rows)
      ensures this.world == world && Current() == State(rows, multiset{}, 0)
    {
      this.world, this.rows, mints, calls := world, rows, multiset{}, 0;
    }

    /** A status write that may fail. */
    method UpdateStatus(id: Id, status: Status) returns (landed: bool)
      modifies this
      ensures landed == world.writeLands(old(calls)) && Current() == old(Current()).Write(id, status, world)
      ensures rows == if landed && id in old(rows) then old(rows)[id := Row(status, old(rows)[id].retryCount, world.clock(old(calls)))]
                      else old(rows)
    {
      landed := world.writeLands(calls);
      if landed {
        rows := SetStatus(rows, id, status, world.clock(calls));
      }
      calls := calls + 1;
    }

    method ResetForRetry(ids: seq<Id>)
      modifies this
      ensures Current() == old(Current()).Release(ids, world)
      ensures rows.Keys == old(rows).Keys && forall id :: id in rows ==>
        if world.writeLands(old(calls)) && id in ids && old(rows)[id].status == Processing
        then rows[id].retryCount == old(rows)[id].retryCount + 1 && rows[id].updatedAt == world.clock(old(calls))
             && rows[id].status == if rows[id].retryCount >= 5 then PermanentlyFailed else Pending
        else rows[id] == old(rows)[id]
    {
      if world.writeLands(calls) {
        rows := Reset(rows, ids, world.clock(calls));
      }
      calls := calls + 1;
    }

    /** Park the doomed ones of a batch, and return the ones still worth sending. */
    method ParkDoomed(batch: seq<Id>, answer: QueryAnswer) returns (live: seq<Id>)
      modifies this
      ensures (Current(), live) == Preflight(old(Current()), batch, answer, world)
      ensures Spares(batch, answer, live) && mints == old(mints) && rows.Keys == old(rows).Keys
      ensures forall id :: id in rows && rows[id] != old(rows)[id] ==>
        id in batch && id !in live && rows[id].status == PermanentlyFailed && rows[id].retryCount == old(rows)[id].retryCount
      ensures WritesLand(world) ==> forall id :: id in rows && id in batch && id !in live ==>
        rows[id].status == PermanentlyFailed && rows[id].retryCount == old(rows)[id].retryCount
    {
      PreflightSpares(Current(), batch, answer, world);
      hide Spares, WritesLand;
      calls := calls + 1;
      if answer.QueryFailed? || answer.ids == [] {
        return batch;
      }
      ghost var start := Current();
      live := [];
      for i := 0 to |batch|
        invariant Current() == Park(start, batch[..i], answer.ids, world)
        invariant live == Without(batch[..i], answer.ids)
      {
        assert batch[..i + 1][..i] == batch[..i];
        if batch[i] in answer.ids {
          var _ := UpdateStatus(batch[i], PermanentlyFailed);
        } else {
          live := live + [batch[i]];
        }
      }
      assert batch[..|batch|] == batch;
    }

    method ParkUnplaceable(claimed: seq<Id>) returns (live: seq<Id>)
      modifies this
      ensures (Current(), live) == Preflight(old(Current()), claimed, world.unplaced(old(calls), claimed), world)
    {
      live := ParkDoomed(claimed, world.unplaced(calls, claimed));
    }

    method ParkLapsed(claimed: seq<Id>) returns (live: seq<Id>)
      modifies this
      ensures (Current(), live) == Preflight(old(Current()), claimed, world.lapsed(old(calls), claimed), world)
    {
      live := ParkDoomed(claimed, world.lapsed(calls, claimed));
    }

    /** Mark what the chain minted. A failed write is retried once without its event and then
        left for reconciliation; it never sends the row back to pending. */
    method FinalizeMinted(minted: seq<Id>)
      modifies this
      ensures Current() == Finalize(old(Current()), minted, world)
      ensures mints == old(mints) && rows.Keys == old(rows).Keys
      ensures forall id :: id in rows && rows[id] != old(rows)[id] ==>
        id in minted && rows[id].status == Completed && rows[id].retryCount == old(rows)[id].retryCount
      ensures (forall n: nat :: world.writeLands(n) || world.writeLands(n + 1)) ==>
        forall id :: id in minted && id in rows ==> rows[id].status == Completed
    {
      ghost var start := Current();
      FinalizeOnlyCompletes(start, minted, world);
      if forall n: nat :: world.writeLands(n) || world.writeLands(n + 1) {
        FinalizeRetries(start, minted, world);
      }
      for i := 0 to |minted|
        invariant Current() == Finalize(start, minted[..i], world)
      {
        assert minted[..i + 1][..i] == minted[..i];
        var landed := UpdateStatus(minted[i], Completed);
        if !landed {
          var _ := UpdateStatus(minted[i], Completed);
        }
      }
      assert minted[..|minted|] == minted;
    }

    /** Mint and finalize an already claimed batch. */
    method Settle(claimed: seq<Id>) returns (outcome: Outcome)
      modifies this
      ensures (Current(), outcome) == SettleClaimed(old(Current()), claimed, world)
      decreases if |claimed| <= 1 then 0 else 2, 0
    {
      hide SettleEach, Finalize, Preflight, Without;
      var placed := ParkUnplaceable(claimed);
      if placed == [] {
        return Settled([]);
      }
      var batch := ParkLapsed(placed);
      if batch == [] {
        return Settled([]);
      }
      var answer := world.chain(calls, batch);
      calls := calls + 1;
      match answer
      case Refused(deterministic) =>
        if deterministic {
          if |batch| == 1 {
            var _ := UpdateStatus(batch[0], PermanentlyFailed);
            return Errored;
          }
          var isolated := SettleAlone(batch);
          return Settled(isolated);
        }
        ResetForRetry(batch);
        outcome := Errored;
      case Minted(ids) =>
        mints := mints + multiset(ids);
        FinalizeMinted(ids);
        var unminted := Without(batch, ids);
        if unminted != [] {
          ResetForRetry(unminted);
        }
        outcome := Settled(ids);
    }

    /** Settle each entry of a refused batch alone; one that fails does not stop the others. */
    method SettleAlone(batch: seq<Id>) returns (isolated: seq<Id>)
      modifies this
      ensures (Current(), isolated) == SettleEach(old(Current()), batch, world)
      decreases 1, |batch|
    {
      hide SettleClaimed, SettleEach;
      EachOfNone(Current(), world);
      ghost var start := Current();
      isolated := [];
      for i := 0 to |batch|
        invariant (Current(), isolated) == SettleEach(start, batch[..i], world)
      {
        SettleEachStep(start, batch, i, world);
        var outcome := Settle([batch[i]]);
        isolated := isolated + if outcome.Settled? then outcome.minted else [];
      }
      assert batch[..|batch|] == batch;
    }

    /** Claim what is still pending of `ids` and settle it: the worker's pass over the pending
        rows it read, and the RPC entry point for the rows it was handed. */
    method ClaimAndSettle(ids: seq<Id>) returns (outcome: Outcome)
      modifies this
      ensures (Current(), outcome) == ClaimPass(old(Current()), ids, world)
    {
      var claimed := Claimable(rows, ids);
      rows := Claim(rows, ids, world.clock(calls));
      calls := calls + 1;
      if claimed == [] {
        return Settled([]);
      }
      outcome := Settle(claimed);
    }

    /** Give back every row stuck past the window: afterwards none is, each has one more retry
        and is pending or, at the limit, parked, and no other row and no mint is touched. */
    method ReclaimStale()
      modifies this
      ensures var now := world.clock(old(calls));
        && rows.Keys == old(rows).Keys
        && (forall id :: id in rows && rows[id].status == Processing ==> rows[id].updatedAt >= now - 300)
        && (forall id :: id in rows && rows[id] != old(rows)[id] ==>
              && old(rows)[id].status == Processing && old(rows)[id].updatedAt < now - 300
              && rows[id].retryCount == old(rows)[id].retryCount + 1
              && rows[id].status == if rows[id].retryCount >= 5 then PermanentlyFailed else Pending)
      ensures mints == old(mints)
      ensures Current() == old(Current()).(rows := Reclaim(old(rows), world.clock(old(calls))), calls := old(calls) + 1)
    {
      rows := Reclaim(rows, world.clock(calls));
      calls := calls + 1;
    }
  }
}
