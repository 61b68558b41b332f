/** Progress of a settlement pass, and isolation of bad settlements in a batch. */
module SettlementTheorems {
  import opened Options
  import opened SettlementSpec

  ghost predicate NoRepeats(ids: seq<Id>) {
    forall i, j :: 0 <= i < j < |ids| ==> ids[i] != ids[j]
  }

  ghost predicate WritesLand(w: World) {
    forall n :: w.writeLands(n)
  }

  /** The gateway mints only what it was sent, each at most once. */
  ghost predicate GatewayHonest(w: World) {
    forall n, batch :: NoRepeats(batch) && w.chain(n, batch).Minted? ==>
      NoRepeats(w.chain(n, batch).ids) && forall id :: id in w.chain(n, batch).ids ==> id in batch
  }

  /** The rows of these settlements are claimed. */
  ghost predicate AllProcessing(rows: Rows, ids: seq<Id>) {
    forall id :: id in ids ==> id in rows && rows[id].status == Processing
  }

  /** How a claimed row may leave a pass: minted and completed, parked with its retries
      untouched, or released with exactly one more. */
  ghost predicate Ended(before: Row, after: Row, mintsBefore: nat, mintsAfter: nat) {
    || (mintsAfter == mintsBefore + 1 && after.status == Completed && after.retryCount == before.retryCount)
    || (mintsAfter == mintsBefore && after.status == PermanentlyFailed && after.retryCount == before.retryCount)
    || (mintsAfter == mintsBefore && after.retryCount == before.retryCount + 1
        && after.status == if after.retryCount >= MAX_SETTLEMENT_RETRIES then PermanentlyFailed else Pending)
  }

  /** All of `ids` ended, and nothing else was touched. */
  ghost predicate PassEnded(s: State, r: State, ids: seq<Id>) {
    && r.rows.Keys == s.rows.Keys
    && (forall id :: id in ids && id in s.rows ==> Ended(s.rows[id], r.rows[id], s.mints[id], r.mints[id]))
    && Untouched(s, r, ids)
  }

  ghost predicate Untouched(s: State, r: State, ids: seq<Id>) {
    && r.rows.Keys == s.rows.Keys
    && (forall id :: id in s.rows && id !in ids ==> r.rows[id] == s.rows[id])
    && (forall id :: id !in ids ==> r.mints[id] == s.mints[id])
  }

  // ---------- The pieces of a pass ----------

  lemma {:induction false} WithoutNoRepeats(batch: seq<Id>, doomed: seq<Id>)
    requires NoRepeats(batch)
    ensures NoRepeats(Without(batch, doomed))
  {
    if batch != [] {
      var n := |batch| - 1;
      WithoutNoRepeats(batch[..n], doomed);
      var rest := Without(batch[..n], doomed);
      forall k | 0 <= k < |rest| ensures rest[k] != batch[n] {
        assert rest[k] in rest;
      }
    }
  }

  /** Parking sets exactly the doomed ones of the batch to permanently failed. */
  lemma {:induction false} ParkDoes(s: State, batch: seq<Id>, doomed: seq<Id>, w: World)
    requires WritesLand(w)
    ensures var r := Park(s, batch, doomed, w);
      && r.rows.Keys == s.rows.Keys && r.mints == s.mints
      && (forall id :: id in s.rows && id in batch && id in doomed ==>
            r.rows[id].status == PermanentlyFailed && r.rows[id].retryCount == s.rows[id].retryCount)
      && (forall id :: id in s.rows && !(id in batch && id in doomed) ==> r.rows[id] == s.rows[id])
  {
    if batch != [] {
      var n := |batch| - 1;
      ParkDoes(s, batch[..n], doomed, w);
      assert forall id :: id in batch <==> id in batch[..n] || id == batch[n];
    }
  }

  /** A pre-flight parks what it drops, and leaves what it keeps. */
  lemma PreflightDoes(s: State, batch: seq<Id>, answer: QueryAnswer, w: World)
    requires WritesLand(w) && NoRepeats(batch)
    ensures var (r, live) := Preflight(s, batch, answer, w);
      && NoRepeats(live) && r.rows.Keys == s.rows.Keys && r.mints == s.mints
      && (forall id :: id in live ==> id in batch)
      && (forall id :: id in s.rows && id in batch && id !in live ==>
            r.rows[id].status == PermanentlyFailed && r.rows[id].retryCount == s.rows[id].retryCount
            && answer.Found? && id in answer.ids)
      && (forall id :: id in s.rows && (id !in batch || id in live) ==> r.rows[id] == s.rows[id])
  {
    if answer.Found? && answer.ids != [] {
      ParkDoes(s.Call(), batch, answer.ids, w);
      WithoutNoRepeats(batch, answer.ids);
    }
  }

  /** The batch without those the query named, in the same order. */
  ghost predicate Spares(batch: seq<Id>, answer: QueryAnswer, live: seq<Id>) {
    && |live| <= |batch|
    && (forall id :: id in live <==> id in batch && (answer.Found? ==> id !in answer.ids))
    && (forall i, j :: 0 <= i < j < |live| ==> InTurn(batch, live[i], live[j]))
  }

  ghost predicate InTurn(batch: seq<Id>, x: Id, y: Id) {
    exists a, b :: 0 <= a < b < |batch| && batch[a] == x && batch[b] == y
  }

  lemma InTurnAt(batch: seq<Id>, a: nat, b: nat)
    requires a < b < |batch|
    ensures InTurn(batch, batch[a], batch[b])
  {
  }

  lemma InTurnLonger(batch: seq<Id>, n: nat, x: Id, y: Id)
    requires n <= |batch| && InTurn(batch[..n], x, y)
    ensures InTurn(batch, x, y)
  {
    var a, b :| 0 <= a < b < n && batch[..n][a] == x && batch[..n][b] == y;
    InTurnAt(batch, a, b);
  }

  lemma WithoutStep(batch: seq<Id>, doomed: seq<Id>)
    ensures batch == [] ==> Without(batch, doomed) == []
    ensures batch != [] ==>
      var n := |batch| - 1;
      Without(batch, doomed) == Without(batch[..n], doomed) + if batch[n] in doomed then [] else [batch[n]]
  {
  }

  lemma {:induction false} WithoutInOrder(batch: seq<Id>, doomed: seq<Id>, i: nat, j: nat)
    requires i < j < |Without(batch, doomed)|
    ensures InTurn(batch, Without(batch, doomed)[i], Without(batch, doomed)[j])
  {
    WithoutStep(batch, doomed);
    hide InTurn, Without;
    var n := |batch| - 1;
    var rest := Without(batch[..n], doomed);
    if j < |rest| {
      WithoutInOrder(batch[..n], doomed, i, j);
      InTurnLonger(batch, n, rest[i], rest[j]);
    } else {
      assert rest[i] in batch[..n];
      var a :| 0 <= a < n && batch[..n][a] == rest[i];
      InTurnAt(batch, a, n);
    }
  }

  /** Parking costs one call per settlement parked, whether or not its write lands. */
  lemma {:induction false} ParkCalls(s: State, batch: seq<Id>, doomed: seq<Id>, w: World)
    ensures var r := Park(s, batch, doomed, w);
      && r.mints == s.mints && r.calls == s.calls + |batch| - |Without(batch, doomed)| && r.rows.Keys == s.rows.Keys
      && (forall id :: id in s.rows && r.rows[id] != s.rows[id] ==>
            id in batch && id in doomed && r.rows[id].status == PermanentlyFailed && r.rows[id].retryCount == s.rows[id].retryCount)
  {
    if batch != [] {
      ParkCalls(s, batch[..|batch| - 1], doomed, w);
    }
  }

  /** What a pre-flight lets through, and what it costs. */
  lemma PreflightSpares(s: State, batch: seq<Id>, answer: QueryAnswer, w: World)
    ensures var (r, live) := Preflight(s, batch, answer, w);
      && Spares(batch, answer, live)
      && r.mints == s.mints && r.calls == s.calls + 1 + |batch| - |live| && r.rows.Keys == s.rows.Keys
      && (forall id :: id in s.rows && r.rows[id] != s.rows[id] ==>
            id in batch && id !in live && r.rows[id].status == PermanentlyFailed && r.rows[id].retryCount == s.rows[id].retryCount)
      && (WritesLand(w) ==> forall id :: id in s.rows && id in batch && id !in live ==>
            r.rows[id].status == PermanentlyFailed && r.rows[id].retryCount == s.rows[id].retryCount)
  {
    if answer.Found? && answer.ids != [] {
      ParkCalls(s.Call(), batch, answer.ids, w);
      if WritesLand(w) {
        ParkDoes(s.Call(), batch, answer.ids, w);
      }
      forall i, j | 0 <= i < j < |Without(batch, answer.ids)|
        ensures InTurn(batch, Without(batch, answer.ids)[i], Without(batch, answer.ids)[j])
      {
        WithoutInOrder(batch, answer.ids, i, j);
      }
    } else {
      forall i, j | 0 <= i < j < |batch| ensures InTurn(batch, batch[i], batch[j]) {
        InTurnAt(batch, i, j);
      }
    }
  }

  /** Finalizing completes or leaves alone, whatever writes fail, and never releases. */
  lemma {:induction false} FinalizeOnlyCompletes(s: State, minted: seq<Id>, w: World)
    ensures var r := Finalize(s, minted, w);
      && r.rows.Keys == s.rows.Keys && r.mints == s.mints
      && (forall id :: id in s.rows && r.rows[id] != s.rows[id] ==>
            id in minted && r.rows[id].status == Completed && r.rows[id].retryCount == s.rows[id].retryCount)
  {
    if minted != [] {
      FinalizeOnlyCompletes(s, minted[..|minted| - 1], w);
    }
  }

  /** With every second write at least landing, all of them end completed. */
  lemma {:induction false} FinalizeRetries(s: State, minted: seq<Id>, w: World)
    requires forall n: nat :: w.writeLands(n) || w.writeLands(n + 1)
    ensures forall id :: id in minted && id in s.rows ==>
      id in Finalize(s, minted, w).rows && Finalize(s, minted, w).rows[id].status == Completed
  {
    if minted != [] {
      var n := |minted| - 1;
      FinalizeRetries(s, minted[..n], w);
      FinalizeOnlyCompletes(s, minted[..n], w);
      var before := Finalize(s, minted[..n], w);
      assert w.writeLands(before.calls) || w.writeLands(before.calls + 1);
    }
  }

  lemma {:induction false} FinalizeDoes(s: State, minted: seq<Id>, w: World)
    requires WritesLand(w)
    ensures var r := Finalize(s, minted, w);
      && r.rows.Keys == s.rows.Keys && r.mints == s.mints
      && (forall id :: id in s.rows && id in minted ==>
            r.rows[id].status == Completed && r.rows[id].retryCount == s.rows[id].retryCount)
      && (forall id :: id in s.rows && id !in minted ==> r.rows[id] == s.rows[id])
  {
    if minted != [] {
      var n := |minted| - 1;
      FinalizeDoes(s, minted[..n], w);
      assert forall id :: id in minted <==> id in minted[..n] || id == minted[n];
    }
  }

  lemma {:induction false} CountOnce(ids: seq<Id>, id: Id)
    requires NoRepeats(ids)
    ensures multiset(ids)[id] == if id in ids then 1 else 0
  {
    if ids != [] {
      var n := |ids| - 1;
      CountOnce(ids[..n], id);
      assert ids == ids[..n] + [ids[n]];
      assert multiset(ids) == multiset(ids[..n]) + multiset{ids[n]};
    }
  }

  /** Minting, finalizing the minted and releasing the rest. */
  lemma MintDoes(s: State, batch: seq<Id>, ids: seq<Id>, w: World)
    requires WritesLand(w) && AllProcessing(s.rows, batch) && NoRepeats(batch) && NoRepeats(ids)
    requires forall id :: id in ids ==> id in batch
    ensures var s3 := Finalize(State(s.rows, s.mints + multiset(ids), s.calls + 1), ids, w);
      var unminted := Without(batch, ids);
      var r := if unminted == [] then s3 else s3.Release(unminted, w);
      && PassEnded(s, r, batch)
      && (forall id :: id in ids ==> r.rows[id].status == Completed && r.rows[id].retryCount == s.rows[id].retryCount)
  {
    hide Finalize, Without, NoRepeats;
    var s3 := Finalize(State(s.rows, s.mints + multiset(ids), s.calls + 1), ids, w);
    FinalizeDoes(State(s.rows, s.mints + multiset(ids), s.calls + 1), ids, w);
    forall id ensures s3.mints[id] == s.mints[id] + if id in ids then 1 else 0 {
      CountOnce(ids, id);
    }
    UnmintedReleased(s3, Without(batch, ids), w);
  }

  /** Releasing counts one more retry on rows still in processing, and changes nothing else. */
  lemma UnmintedReleased(s: State, unminted: seq<Id>, w: World)
    requires WritesLand(w)
    ensures var r := if unminted == [] then s else s.Release(unminted, w);
      && r.rows.Keys == s.rows.Keys && r.mints == s.mints
      && (forall id :: id in s.rows ==>
            r.rows[id] == s.rows[id]
            || (id in unminted && s.rows[id].status == Processing && r.rows[id] == Released(s.rows[id], w.clock(s.calls))))
      && (forall id :: id in s.rows && id in unminted && s.rows[id].status == Processing ==>
            r.rows[id] == Released(s.rows[id], w.clock(s.calls)))
  {
  }

  lemma ReleaseDoes(s: State, batch: seq<Id>, w: World)
    requires WritesLand(w) && AllProcessing(s.rows, batch)
    ensures PassEnded(s, s.Release(batch, w), batch)
  {
  }

  lemma PassCompose(s: State, mid: State, r: State, first: seq<Id>, second: seq<Id>, all: seq<Id>)
    requires PassEnded(s, mid, first) && PassEnded(mid, r, second)
    requires forall id :: id in all <==> id in first || id in second
    requires forall id :: id in first ==> id !in second
    ensures PassEnded(s, r, all)
  {
  }

  /** What the pre-flights park, and a pass over the rest, end the whole batch. */
  lemma ParkedThenEnded(s: State, mid: State, r: State, batch: seq<Id>, live: seq<Id>)
    requires mid.rows.Keys == s.rows.Keys && mid.mints == s.mints
    requires forall id :: id in live ==> id in batch
    requires forall id :: id in s.rows && id in batch && id !in live ==>
      mid.rows[id].status == PermanentlyFailed && mid.rows[id].retryCount == s.rows[id].retryCount
    requires forall id :: id in s.rows && (id !in batch || id in live) ==> mid.rows[id] == s.rows[id]
    requires PassEnded(mid, r, live)
    ensures PassEnded(s, r, batch)
  {
  }

  // ---------- Progress ----------

  /** Every pass over a claimed batch ends every row of it: none stays in processing, a minted
      one is completed and never released, an unminted one is parked or released with exactly
      one more retry; no row is minted twice and no other row is touched. */
  lemma {:induction false} PassProgress(s: State, claimed: seq<Id>, w: World)
    requires WritesLand(w) && GatewayHonest(w) && NoRepeats(claimed) && AllProcessing(s.rows, claimed)
    ensures PassEnded(s, SettleClaimed(s, claimed, w).0, claimed)
    decreases if |claimed| <= 1 then 0 else 2, 1
  {
    hide PassEnded, Finalize, Park, Without, NoRepeats;
    var answer1 := w.unplaced(s.calls, claimed);
    var (s1, placed) := Preflight(s, claimed, answer1, w);
    PreflightDoes(s, claimed, answer1, w);
    NothingEnded(s1);
    var r := SettleClaimed(s, claimed, w).0;
    if placed != [] {
      var answer2 := w.lapsed(s1.calls, placed);
      var (s2, batch) := Preflight(s1, placed, answer2, w);
      PreflightDoes(s1, placed, answer2, w);
      NothingEnded(s2);
      if batch != [] {
        PassAfterPreflight(s2, batch, w);
      }
      ParkedThenEnded(s1, s2, r, placed, batch);
    }
    ParkedThenEnded(s, s1, r, claimed, placed);
  }

  lemma NothingEnded(s: State)
    ensures PassEnded(s, s, [])
  {
  }

  /** The chain's part of a pass. */
  function AfterPreflight(s: State, batch: seq<Id>, w: World): State
    requires batch != []
  {
    match w.chain(s.calls, batch)
    case Refused(deterministic) =>
      if !deterministic then s.Call().Release(batch, w)
      else if |batch| == 1 then s.Call().Write(batch[0], PermanentlyFailed, w)
      else SettleEach(s.Call(), batch, w).0
    case Minted(ids) =>
      var s3 := Finalize(State(s.rows, s.mints + multiset(ids), s.calls + 1), ids, w);
      var unminted := Without(batch, ids);
      if unminted == [] then s3 else s3.Release(unminted, w)
  }

  lemma {:induction false} PassAfterPreflight(s: State, batch: seq<Id>, w: World)
    requires WritesLand(w) && GatewayHonest(w) && NoRepeats(batch) && AllProcessing(s.rows, batch) && batch != []
    ensures PassEnded(s, AfterPreflight(s, batch, w), batch)
    decreases if |batch| <= 1 then 0 else 1, if |batch| <= 1 then 0 else |batch| + 1
  {
    hide Finalize, Without;
    match w.chain(s.calls, batch)
    case Refused(deterministic) =>
      if !deterministic {
        ReleaseDoes(s.Call(), batch, w);
      } else if |batch| > 1 {
        EachEnded(s.Call(), batch, w);
      }
    case Minted(ids) =>
      MintDoes(s, batch, ids, w);
  }

  lemma {:induction false} EachEnded(s: State, batch: seq<Id>, w: World)
    requires WritesLand(w) && GatewayHonest(w) && NoRepeats(batch) && AllProcessing(s.rows, batch)
    ensures PassEnded(s, SettleEach(s, batch, w).0, batch)
    decreases 1, |batch|
  {
    hide SettleClaimed;
    if batch == [] {
      NothingEnded(s);
    } else {
      var n := |batch| - 1;
      EachEnded(s, batch[..n], w);
      var before := SettleEach(s, batch[..n], w).0;
      assert batch[n] !in batch[..n];
      PassProgress(before, [batch[n]], w);
      PassCompose(s, before, SettleEach(s, batch, w).0, batch[..n], [batch[n]], batch);
    }
  }

  // ---------- Exactly how a pass ends ----------

  /** Parked: permanently failed, with no retry spent and nothing minted. */
  ghost predicate Parked(s: State, r: State, id: Id) {
    id in s.rows && id in r.rows && r.rows[id].status == PermanentlyFailed
    && r.rows[id].retryCount == s.rows[id].retryCount && r.mints[id] == s.mints[id]
  }

  /** Minted once and completed, with no retry spent. */
  ghost predicate MintedOnce(s: State, r: State, id: Id) {
    id in s.rows && id in r.rows && r.rows[id].status == Completed
    && r.rows[id].retryCount == s.rows[id].retryCount && r.mints[id] == s.mints[id] + 1
  }

  /** Given back with one more retry, and parked when that was the last; nothing minted. */
  ghost predicate GivenBack(s: State, r: State, id: Id) {
    id in s.rows && id in r.rows && r.rows[id].retryCount == s.rows[id].retryCount + 1 && r.mints[id] == s.mints[id]
    && r.rows[id].status == if r.rows[id].retryCount >= 5 then PermanentlyFailed else Pending
  }

  /** What the chain's answer to `sent` does to each settlement sent. */
  ghost predicate AnswerApplied(s: State, r: State, sent: seq<Id>, answer: ChainAnswer) {
    match answer
    case Minted(ids) => forall id :: id in sent ==> if id in ids then MintedOnce(s, r, id) else GivenBack(s, r, id)
    case Refused(deterministic) =>
      && (!deterministic ==> forall id :: id in sent ==> GivenBack(s, r, id))
      && (deterministic && |sent| == 1 ==> Parked(s, r, sent[0]))
  }

  /** The state of the pass once the pre-flights are done, given what they let through. */
  ghost predicate ReachesChain(s: State, mid: State, claimed: seq<Id>, sent: seq<Id>) {
    && mid.rows.Keys == s.rows.Keys && mid.mints == s.mints && mid.calls == s.calls + 2 + |claimed| - |sent|
    && (forall id :: id in s.rows && (id !in claimed || id in sent) ==> mid.rows[id] == s.rows[id])
    && (forall id :: id in claimed && id !in sent && id in s.rows ==> Parked(s, mid, id))
  }

  lemma MintApplies(s: State, batch: seq<Id>, ids: seq<Id>, w: World)
    requires WritesLand(w) && AllProcessing(s.rows, batch) && NoRepeats(batch) && NoRepeats(ids)
    requires forall id :: id in ids ==> id in batch
    ensures var s3 := Finalize(State(s.rows, s.mints + multiset(ids), s.calls + 1), ids, w);
      var unminted := Without(batch, ids);
      AnswerApplied(s, if unminted == [] then s3 else s3.Release(unminted, w), batch, Minted(ids))
  {
    hide Finalize, Without, NoRepeats;
    var s1 := State(s.rows, s.mints + multiset(ids), s.calls + 1);
    var s3 := Finalize(s1, ids, w);
    FinalizeDoes(s1, ids, w);
    UnmintedReleased(s3, Without(batch, ids), w);
    forall id | id in batch ensures if id in ids then s3.mints[id] == s.mints[id] + 1 else s3.mints[id] == s.mints[id] {
      CountOnce(ids, id);
    }
  }

  /** The chain's part, applied to each settlement sent; a final verdict on several sends each
      alone. */
  lemma ChainApplies(s: State, batch: seq<Id>, w: World)
    requires WritesLand(w) && GatewayHonest(w) && NoRepeats(batch) && AllProcessing(s.rows, batch) && batch != []
    ensures AnswerApplied(s, AfterPreflight(s, batch, w), batch, w.chain(s.calls, batch))
    ensures w.chain(s.calls, batch) == Refused(true) && |batch| > 1 ==>
      AfterPreflight(s, batch, w) == SettleEach(s.Call(), batch, w).0
  {
    hide Finalize, Without, SettleEach;
    match w.chain(s.calls, batch)
    case Refused(deterministic) =>
    case Minted(ids) =>
      MintApplies(s, batch, ids, w);
  }

  /** What holds of `mid` holds of the state the pass began in: only parked ones differ. */
  lemma AppliedFrom(s: State, mid: State, r: State, claimed: seq<Id>, sent: seq<Id>, answer: ChainAnswer)
    requires ReachesChain(s, mid, claimed, sent) && AnswerApplied(mid, r, sent, answer)
    requires forall id :: id in sent ==> id in claimed && id in s.rows
    ensures AnswerApplied(s, r, sent, answer)
  {
  }

  /** What the pass reports: what was minted, nothing when nothing was sent, or an error. */
  ghost predicate Reports(outcome: Outcome, mid: State, sent: seq<Id>, w: World) {
    if sent == [] then outcome == Settled([])
    else
      match w.chain(mid.calls, sent)
      case Minted(ids) => outcome == Settled(ids)
      case Refused(deterministic) =>
        outcome == if deterministic && |sent| > 1 then Settled(SettleEach(mid.Call(), sent, w).1) else Errored
  }

  lemma ReportsInStages(s: State, claimed: seq<Id>, w: World)
    ensures var (s1, placed) := Preflight(s, claimed, w.unplaced(s.calls, claimed), w);
      var (s2, sent) := if placed == [] then (s1, []) else Preflight(s1, placed, w.lapsed(s1.calls, placed), w);
      Reports(SettleClaimed(s, claimed, w).1, s2, sent, w)
  {
    hide Preflight, SettleEach, Finalize, Without;
  }

  /** The pass, call by call: it sends the claimed settlements that neither query names, in
      order, having parked the others, and every settlement sent ends as the chain's answer to
      exactly that batch says; after a final verdict on several, each is settled alone. */
  lemma PassExactly(s: State, claimed: seq<Id>, w: World) returns (placed: seq<Id>, sent: seq<Id>, mid: State)
    requires WritesLand(w) && GatewayHonest(w) && NoRepeats(claimed) && AllProcessing(s.rows, claimed)
    ensures Spares(claimed, w.unplaced(s.calls, claimed), placed)
    ensures if placed == [] then sent == [] else Spares(placed, w.lapsed(s.calls + 1 + |claimed| - |placed|, placed), sent)
    ensures Reports(SettleClaimed(s, claimed, w).1, mid, sent, w)
    ensures var r := SettleClaimed(s, claimed, w).0;
      && Untouched(s, r, claimed)
      && (forall id :: id in claimed && id !in sent ==> Parked(s, r, id))
      && (sent != [] ==>
           && ReachesChain(s, mid, claimed, sent)
           && AnswerApplied(s, r, sent, w.chain(mid.calls, sent))
           && (w.chain(mid.calls, sent) == Refused(true) && |sent| > 1 ==> r == SettleEach(mid.Call(), sent, w).0))
  {
    hide Finalize, Park, Without, NoRepeats, Preflight, SettleEach, Spares, AfterPreflight, AnswerApplied, GatewayHonest, WritesLand, Reports;
    PassProgress(s, claimed, w);
    PassInStages(s, claimed, w);
    ReportsInStages(s, claimed, w);
    var answer1 := w.unplaced(s.calls, claimed);
    var s1 := Preflight(s, claimed, answer1, w).0;
    placed := Preflight(s, claimed, answer1, w).1;
    PreflightDoes(s, claimed, answer1, w);
    PreflightSpares(s, claimed, answer1, w);
    sent, mid := [], s1;
    if placed != [] {
      var answer2 := w.lapsed(s1.calls, placed);
      mid, sent := Preflight(s1, placed, answer2, w).0, Preflight(s1, placed, answer2, w).1;
      PreflightDoes(s1, placed, answer2, w);
      PreflightSpares(s1, placed, answer2, w);
      if sent != [] {
        ChainApplies(mid, sent, w);
        PassAfterPreflight(mid, sent, w);
        AppliedFrom(s, mid, AfterPreflight(mid, sent, w), claimed, sent, w.chain(mid.calls, sent));
      }
    }
  }

  /** Settling alone is one pass per entry, in order, each over the state the one before left. */
  lemma {:induction false} AloneInTurn(s: State, batch: seq<Id>, w: World) returns (states: seq<State>)
    ensures |states| == |batch| + 1 && states[0] == s && states[|batch|] == SettleEach(s, batch, w).0
    ensures forall k :: 0 <= k < |batch| ==> states[k + 1] == SettleClaimed(states[k], [batch[k]], w).0
    decreases |batch|
  {
    hide SettleClaimed;
    if batch == [] {
      states := [s];
    } else {
      var n := |batch| - 1;
      states := AloneInTurn(s, batch[..n], w);
      states := states + [SettleClaimed(states[n], [batch[n]], w).0];
    }
  }

  // ---------- Isolation of bad settlements ----------

  /** The chain runs a batch whole or not at all: it refuses, for good, exactly the batches
      that hold a bad settlement, and otherwise mints all of it. */
  ghost predicate AtomicGateway(w: World, bad: iset<Id>) {
    forall n, batch ::
      if exists id :: id in batch && id in bad then w.chain(n, batch) == Refused(true)
      else w.chain(n, batch) == Minted(batch)
  }

  /** No pre-flight ever names this settlement. */
  ghost predicate Clear(w: World, id: Id) {
    forall n, batch ::
      && (w.unplaced(n, batch).Found? ==> id !in w.unplaced(n, batch).ids)
      && (w.lapsed(n, batch).Found? ==> id !in w.lapsed(n, batch).ids)
  }

  /** A bad settlement ends parked. A good one ends completed, unless a pre-flight named it,
      in which case it may be parked. Nobody's retries move. */
  ghost predicate Judged(id: Id, before: Row, after: Row, bad: iset<Id>, w: World) {
    && after.retryCount == before.retryCount
    && (id in bad ==> after.status == PermanentlyFailed)
    && (id !in bad ==> after.status == Completed || (after.status == PermanentlyFailed && !Clear(w, id)))
  }

  ghost predicate AllJudged(s: State, r: State, ids: seq<Id>, bad: iset<Id>, w: World) {
    && Untouched(s, r, ids)
    && (forall id :: id in ids && id in s.rows ==> Judged(id, s.rows[id], r.rows[id], bad, w))
    && (forall id :: id in ids && id in s.rows ==>
          r.mints[id] == s.mints[id] + if r.rows[id].status == Completed then 1 else 0)
  }

  lemma JudgedCompose(s: State, mid: State, r: State, first: seq<Id>, second: seq<Id>, all: seq<Id>, bad: iset<Id>, w: World)
    requires AllJudged(s, mid, first, bad, w) && AllJudged(mid, r, second, bad, w)
    requires forall id :: id in all <==> id in first || id in second
    requires forall id :: id in first ==> id !in second
    ensures AllJudged(s, r, all, bad, w)
  {
    hide Clear;
  }

  /** A pre-flight may drop a bad settlement, or a good one it names. */
  lemma PreflightJudges(s: State, batch: seq<Id>, answer: QueryAnswer, r: State, w: World, bad: iset<Id>)
    requires WritesLand(w) && NoRepeats(batch)
    requires answer.Found? ==> forall id :: id in answer.ids ==> !Clear(w, id)
    requires var (mid, live) := Preflight(s, batch, answer, w); AllJudged(mid, r, live, bad, w)
    ensures AllJudged(s, r, batch, bad, w)
  {
    hide Clear, Preflight;
    PreflightDoes(s, batch, answer, w);
  }

  /** With an atomic gateway, a pass convicts exactly the bad settlements of a batch, however
      many there are: every good one no pre-flight names ends completed and minted once, every
      bad one ends parked and unminted, and no retry is consumed. */
  lemma {:induction false} BadSettlementsIsolated(s: State, claimed: seq<Id>, w: World, bad: iset<Id>)
    requires WritesLand(w) && AtomicGateway(w, bad) && NoRepeats(claimed) && AllProcessing(s.rows, claimed)
    ensures AllJudged(s, SettleClaimed(s, claimed, w).0, claimed, bad, w)
    decreases if |claimed| <= 1 then 0 else 2, 2
  {
    hide AllJudged, Clear, NoRepeats, Preflight, AfterPreflight, AtomicGateway;
    var answer := w.unplaced(s.calls, claimed);
    NamedNotClear(w, s.calls, claimed);
    var (s1, placed) := Preflight(s, claimed, answer, w);
    PreflightDoes(s, claimed, answer, w);
    PassInStages(s, claimed, w);
    PlacedJudged(s1, placed, w, bad);
    PreflightJudges(s, claimed, answer, AfterPlacement(s1, placed, w), w, bad);
  }

  /** What a pass does after the placement pre-flight. */
  function AfterPlacement(s: State, placed: seq<Id>, w: World): State {
    if placed == [] then s
    else
      var (s2, batch) := Preflight(s, placed, w.lapsed(s.calls, placed), w);
      if batch == [] then s2 else AfterPreflight(s2, batch, w)
  }

  lemma PassInStages(s: State, claimed: seq<Id>, w: World)
    ensures var (s1, placed) := Preflight(s, claimed, w.unplaced(s.calls, claimed), w);
      SettleClaimed(s, claimed, w).0 == AfterPlacement(s1, placed, w)
  {
    hide Preflight, SettleEach, Finalize, Without;
  }

  lemma {:induction false} PlacedJudged(s: State, placed: seq<Id>, w: World, bad: iset<Id>)
    requires WritesLand(w) && AtomicGateway(w, bad) && NoRepeats(placed) && AllProcessing(s.rows, placed)
    ensures AllJudged(s, AfterPlacement(s, placed, w), placed, bad, w)
    decreases if |placed| <= 1 then 0 else 2, 1
  {
    hide AllJudged, Clear, NoRepeats, Preflight, AfterPreflight, AtomicGateway;
    if placed == [] {
      NothingJudged(s, bad, w);
    } else {
      var answer := w.lapsed(s.calls, placed);
      NamedNotClear(w, s.calls, placed);
      var (s2, batch) := Preflight(s, placed, answer, w);
      PreflightDoes(s, placed, answer, w);
      if batch == [] {
        NothingJudged(s2, bad, w);
      } else {
        ChainJudges(s2, batch, w, bad);
      }
      PreflightJudges(s, placed, answer, AfterPlacement(s, placed, w), w, bad);
    }
  }

  lemma NamedNotClear(w: World, n: nat, batch: seq<Id>)
    ensures w.unplaced(n, batch).Found? ==> forall id :: id in w.unplaced(n, batch).ids ==> !Clear(w, id)
    ensures w.lapsed(n, batch).Found? ==> forall id :: id in w.lapsed(n, batch).ids ==> !Clear(w, id)
  {
  }

  lemma NothingJudged(s: State, bad: iset<Id>, w: World)
    ensures AllJudged(s, s, [], bad, w)
  {
  }

  lemma {:induction false} ChainJudges(s: State, batch: seq<Id>, w: World, bad: iset<Id>)
    requires WritesLand(w) && AtomicGateway(w, bad) && NoRepeats(batch) && AllProcessing(s.rows, batch) && batch != []
    ensures AllJudged(s, AfterPreflight(s, batch, w), batch, bad, w)
    decreases if |batch| <= 1 then 0 else 1, if |batch| <= 1 then 0 else |batch| + 1
  {
    hide Finalize, Without, Clear;
    if id :| id in batch && id in bad {
      assert w.chain(s.calls, batch) == Refused(true);
      if |batch| > 1 {
        EachJudged(s.Call(), batch, w, bad);
      }
    } else {
      assert w.chain(s.calls, batch) == Minted(batch);
      MintDoes(s, batch, batch, w);
    }
  }

  lemma {:induction false} EachJudged(s: State, batch: seq<Id>, w: World, bad: iset<Id>)
    requires WritesLand(w) && AtomicGateway(w, bad) && NoRepeats(batch) && AllProcessing(s.rows, batch)
    ensures AllJudged(s, SettleEach(s, batch, w).0, batch, bad, w)
    decreases 1, |batch|
  {
    hide SettleClaimed, Clear;
    if batch == [] {
      NothingJudged(s, bad, w);
    } else {
      var n := |batch| - 1;
      EachJudged(s, batch[..n], w, bad);
      var before := SettleEach(s, batch[..n], w).0;
      assert batch[n] !in batch[..n];
      BadSettlementsIsolated(before, [batch[n]], w, bad);
      JudgedCompose(s, before, SettleEach(s, batch, w).0, batch[..n], [batch[n]], batch, bad, w);
    }
  }

  /** A claim takes each pending row of the request once, and marks just those. */
  lemma {:induction false} ClaimTakes(rows: Rows, ids: seq<Id>, now: int)
    ensures NoRepeats(Claimable(rows, ids)) && AllProcessing(Claim(rows, ids, now), Claimable(rows, ids))
    ensures forall id :: id in Claimable(rows, ids) <==> id in ids && id in rows && rows[id].status == Pending
    ensures forall id :: id in rows && id !in Claimable(rows, ids) ==> Claim(rows, ids, now)[id] == rows[id]
  {
    if ids != [] {
      var n := |ids| - 1;
      ClaimTakes(rows, ids[..n], now);
      assert forall id :: id in ids <==> id in ids[..n] || id == ids[n];
      forall k | 0 <= k < |Claimable(rows, ids[..n])| ensures Claimable(rows, ids[..n])[k] in Claimable(rows, ids[..n]) {
      }
    }
  }

  /** A worker pass or RPC call takes exactly the pending rows it was asked for, and each of
      them leaves processing before it returns. */
  lemma ClaimedPassProgress(s: State, ids: seq<Id>, w: World)
    requires WritesLand(w) && GatewayHonest(w)
    ensures var r := ClaimPass(s, ids, w).0;
      && Untouched(s, r, Claimable(s.rows, ids))
      && (forall id :: id in ids && id in s.rows && s.rows[id].status == Pending ==>
            r.rows[id].status != Processing && Ended(s.rows[id], r.rows[id], s.mints[id], r.mints[id]))
  {
    hide SettleClaimed, Claimable, NoRepeats, GatewayHonest, WritesLand;
    ClaimTakes(s.rows, ids, w.clock(s.calls));
    var claimed := Claimable(s.rows, ids);
    var taken := State(Claim(s.rows, ids, w.clock(s.calls)), s.mints, s.calls + 1);
    var r := ClaimPass(s, ids, w).0;
    if claimed == [] {
      NothingEnded(taken);
    } else {
      PassProgress(taken, claimed, w);
    }
    assert PassEnded(taken, r, claimed);
  }
}
