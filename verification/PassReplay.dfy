/** One pass of the settlement service is a run of the interleaving protocol, so what the
    protocol guarantees of every run it guarantees of every pass. */
module PassReplay {
  import opened Options
  import opened SettlementSpec
  import opened SettlementTheorems
  import opened MintProtocol

  /** One of a minted settlement's two completion writes lands. */
  ghost predicate CompletionsLand(w: World) {
    forall n: nat :: w.writeLands(n) || w.writeLands(n + 1)
  }

  /** From call `from` on the clock never goes back, and stays inside the stale window of a pass
      begun at `started`. */
  ghost predicate Timely(w: World, started: int, from: nat) {
    forall m: nat, n: nat :: from <= m <= n ==> w.clock(m) <= w.clock(n) <= started + STALE_PROCESSING_SECS
  }

  /** A run of the protocol so far. */
  datatype Play = Play(start: Proto, steps: seq<Step>) {
    ghost predicate Valid() { CanRun(start, steps, Both) }

    function State(): Proto { After(start, steps) }
  }

  lemma {:induction false} RunOn(s: Proto, steps: seq<Step>, step: Step)
    requires CanRun(s, steps, Both) && Enabled(After(s, steps), step, Both)
    ensures CanRun(s, steps + [step], Both) && After(s, steps + [step]) == Apply(After(s, steps), step)
    decreases |steps|
  {
    hide Apply, Enabled;
    if steps == [] {
      NoSteps(Apply(s, step), Both);
      assert [] + [step] == [step] + [];
      ConsRun(s, step, [], Both);
    } else {
      RunOn(Apply(s, steps[0]), steps[1..], step);
      assert steps + [step] == [steps[0]] + (steps[1..] + [step]);
      ConsRun(s, steps[0], steps[1..] + [step], Both);
    }
  }

  lemma Take(play: Play, step: Step) returns (r: Play)
    requires play.Valid() && Enabled(play.State(), step, Both)
    ensures r.Valid() && r.start == play.start && r.State() == Apply(play.State(), step)
  {
    hide Apply, Enabled, CanRun, After;
    RunOn(play.start, play.steps, step);
    r := Play(play.start, play.steps + [step]);
  }

  /** The run has reached the pass's state `s`, with one batch in flight. */
  ghost predicate At(play: Play, s: State, batch: Batch, w: World) {
    && play.Valid()
    && play.State() == Proto(s.rows, map[0 := batch], s.mints, play.State().now)
    && play.State().now <= w.clock(s.calls)
  }

  /** Let the clock reach call `n`. */
  lemma AdvanceTo(play: Play, s: State, batch: Batch, w: World, n: nat) returns (r: Play)
    requires At(play, s, batch, w) && s.calls <= n && Timely(w, batch.startedAt, s.calls)
    ensures r.Valid() && r.start == play.start && r.State() == Proto(s.rows, map[0 := batch], s.mints, w.clock(n))
  {
    hide CanRun, After;
    assert w.clock(s.calls) <= w.clock(n) <= batch.startedAt + STALE_PROCESSING_SECS;
    r := Take(play, Advance(w.clock(n)));
  }

  lemma TimelyLater(w: World, started: int, from: nat, later: nat)
    requires Timely(w, started, from) && from <= later
    ensures Timely(w, started, later)
  {
  }

  /** A failed query, or any call that writes nothing. */
  lemma Idles(play: Play, s: State, batch: Batch, w: World)
    requires At(play, s, batch, w) && Timely(w, batch.startedAt, s.calls)
    ensures At(play, s.Call(), batch, w)
  {
    hide CanRun, After;
    assert w.clock(s.calls) <= w.clock(s.calls + 1);
  }

  /** Parking one settlement of the batch. */
  lemma ParksOne(play: Play, s: State, batch: Batch, id: Id, w: World) returns (r: Play)
    requires At(play, s, batch, w) && Timely(w, batch.startedAt, s.calls) && id in batch.live
    ensures At(r, s.Write(id, PermanentlyFailed, w), batch.(live := batch.live - {id}), w) && r.start == play.start
  {
    hide CanRun, After;
    var now := AdvanceTo(play, s, batch, w, s.calls);
    r := Take(now, ParkOne(0, id, w.writeLands(s.calls)));
    assert map[0 := batch][0 := batch.(live := batch.live - {id})] == map[0 := batch.(live := batch.live - {id})];
    assert w.clock(s.calls) <= w.clock(s.calls + 1);
  }

  /** Completing one minted settlement, at its first or its second write. */
  lemma CompletesOne(play: Play, s: State, batch: Batch, id: Id, w: World) returns (r: Play)
    requires At(play, s, batch, w) && Timely(w, batch.startedAt, s.calls) && id in batch.minted
    requires w.writeLands(s.calls) || w.writeLands(s.calls + 1)
    ensures var once := s.Write(id, Completed, w);
      At(r, if w.writeLands(s.calls) then once else once.Write(id, Completed, w), batch.(minted := batch.minted - {id}), w)
    ensures r.start == play.start
  {
    hide CanRun, After;
    var at := if w.writeLands(s.calls) then s.calls else s.calls + 1;
    var now := AdvanceTo(play, s, batch, w, at);
    r := Take(now, CompleteOne(0, id));
    assert map[0 := batch][0 := batch.(minted := batch.minted - {id})] == map[0 := batch.(minted := batch.minted - {id})];
    assert w.clock(at) <= w.clock(at + 1);
  }

  /** Releasing settlements the chain did not mint. */
  lemma Releases(play: Play, s: State, batch: Batch, ids: seq<Id>, w: World) returns (r: Play)
    requires At(play, s, batch, w) && Timely(w, batch.startedAt, s.calls) && Members(ids) <= batch.unminted
    ensures At(r, s.Release(ids, w), batch.(unminted := batch.unminted - Members(ids)), w) && r.start == play.start
  {
    hide CanRun, After;
    var now := AdvanceTo(play, s, batch, w, s.calls);
    assert forall id :: id in ids ==> id in Members(ids);
    r := Take(now, ReleaseUnminted(0, ids, w.writeLands(s.calls)));
    var left := batch.(unminted := batch.unminted - Members(ids));
    assert map[0 := batch][0 := left] == map[0 := left];
    assert w.clock(s.calls) <= w.clock(s.calls + 1);
  }

  /** The batch once the chain has answered. */
  function Answered(batch: Batch, sent: seq<Id>, answer: ChainAnswer): Batch {
    match answer
    case Minted(ids) =>
      batch.(live := batch.live - Members(sent), minted := batch.minted + Members(ids),
             unminted := batch.unminted + (Members(sent) - Members(ids)))
    case Refused(deterministic) =>
      if deterministic then batch else batch.(live := batch.live - Members(sent), unminted := batch.unminted + Members(sent))
  }

  function MintedBy(answer: ChainAnswer): multiset<Id> {
    match answer case Minted(ids) => multiset(ids) case Refused(_) => multiset{}
  }

  lemma Sends(play: Play, s: State, batch: Batch, sent: seq<Id>, w: World) returns (r: Play)
    requires At(play, s, batch, w) && Timely(w, batch.startedAt, s.calls) && GatewayHonest(w)
    requires NoRepeats(sent) && Members(sent) <= batch.live
    ensures var answer := w.chain(s.calls, sent);
      At(r, State(s.rows, s.mints + MintedBy(answer), s.calls + 1), Answered(batch, sent, answer), w)
    ensures r.start == play.start
  {
    hide CanRun, After, NoRepeats;
    var answer := w.chain(s.calls, sent);
    assert forall id :: id in sent ==> id in Members(sent);
    r := Take(play, Send(0, sent, answer));
    assert map[0 := batch][0 := Answered(batch, sent, answer)] == map[0 := Answered(batch, sent, answer)];
    assert w.clock(s.calls) <= w.clock(s.calls + 1);
  }

  // ---------- The pieces of a pass ----------

  /** Where a piece of a pass takes the run: from `s` to `r`, leaving this batch in flight. */
  ghost predicate Moved(play: Play, next: Play, s: State, r: State, batch: Batch, w: World) {
    next.start == play.start && At(next, r, batch, w) && s.calls <= r.calls && Timely(w, batch.startedAt, r.calls)
  }

  lemma MembersSplit(ids: seq<Id>)
    requires ids != []
    ensures Members(ids) == Members(ids[..|ids| - 1]) + {ids[|ids| - 1]}
    ensures NoRepeats(ids) ==> NoRepeats(ids[..|ids| - 1]) && ids[|ids| - 1] !in Members(ids[..|ids| - 1])
  {
    assert forall id :: id in ids <==> id in ids[..|ids| - 1] || id == ids[|ids| - 1];
  }

  lemma {:induction false} ParksRun(play: Play, s: State, batch: Batch, ids: seq<Id>, doomed: seq<Id>, w: World) returns (r: Play)
    requires At(play, s, batch, w) && Timely(w, batch.startedAt, s.calls)
    requires NoRepeats(ids) && Members(ids) <= batch.live
    ensures Moved(play, r, s, Park(s, ids, doomed, w), batch.(live := batch.live - (Members(ids) * Members(doomed))), w)
  {
    hide At, NoRepeats, Timely;
    if ids == [] {
      r := play;
      assert batch.live - (Members(ids) * Members(doomed)) == batch.live;
    } else {
      var n := |ids| - 1;
      MembersSplit(ids);
      var mid := ParksRun(play, s, batch, ids[..n], doomed, w);
      var before := Park(s, ids[..n], doomed, w);
      var rest := batch.(live := batch.live - (Members(ids[..n]) * Members(doomed)));
      if ids[n] in doomed {
        r := ParksOne(mid, before, rest, ids[n], w);
        TimelyLater(w, batch.startedAt, before.calls, before.calls + 1);
        assert rest.live - {ids[n]} == batch.live - (Members(ids) * Members(doomed));
      } else {
        r := mid;
        assert rest.live == batch.live - (Members(ids) * Members(doomed));
      }
    }
  }

  lemma {:induction false} FinalizesRun(play: Play, s: State, batch: Batch, ids: seq<Id>, w: World) returns (r: Play)
    requires At(play, s, batch, w) && Timely(w, batch.startedAt, s.calls) && CompletionsLand(w)
    requires NoRepeats(ids) && Members(ids) <= batch.minted
    ensures Moved(play, r, s, Finalize(s, ids, w), batch.(minted := batch.minted - Members(ids)), w)
  {
    hide At, NoRepeats, Timely;
    if ids == [] {
      r := play;
      assert batch.minted - Members(ids) == batch.minted;
    } else {
      var n := |ids| - 1;
      MembersSplit(ids);
      var mid := FinalizesRun(play, s, batch, ids[..n], w);
      var before := Finalize(s, ids[..n], w);
      var rest := batch.(minted := batch.minted - Members(ids[..n]));
      r := CompletesOne(mid, before, rest, ids[n], w);
      TimelyLater(w, batch.startedAt, before.calls, Finalize(s, ids, w).calls);
      assert rest.minted - {ids[n]} == batch.minted - Members(ids);
    }
  }

  lemma PreflightRuns(play: Play, s: State, batch: Batch, ids: seq<Id>, answer: QueryAnswer, w: World) returns (r: Play)
    requires At(play, s, batch, w) && Timely(w, batch.startedAt, s.calls)
    requires NoRepeats(ids) && Members(ids) <= batch.live
    ensures var (after, live) := Preflight(s, ids, answer, w);
      && Moved(play, r, s, after, batch.(live := batch.live - (Members(ids) - Members(live))), w)
      && NoRepeats(live) && Members(live) <= Members(ids)
  {
    hide At, NoRepeats, Timely;
    var (after, live) := Preflight(s, ids, answer, w);
    Idles(play, s, batch, w);
    TimelyLater(w, batch.startedAt, s.calls, s.calls + 1);
    if answer.QueryFailed? || answer.ids == [] {
      r := play;
      assert batch.live - (Members(ids) - Members(live)) == batch.live;
    } else {
      r := ParksRun(play, s.Call(), batch, ids, answer.ids, w);
      WithoutNoRepeats(ids, answer.ids);
      assert Members(ids) * Members(answer.ids) == Members(ids) - Members(live);
    }
  }

  // ---------- A whole pass ----------

  /** The batch with these settlements done with. */
  function Rid(batch: Batch, ids: seq<Id>): Batch { batch.(live := batch.live - Members(ids)) }

  /** Settling claimed settlements takes the run to the pass's own end, their batch rid of them. */
  lemma {:induction false} PassRuns(play: Play, s: State, batch: Batch, claimed: seq<Id>, w: World) returns (r: Play)
    requires At(play, s, batch, w) && Timely(w, batch.startedAt, s.calls) && GatewayHonest(w) && CompletionsLand(w)
    requires NoRepeats(claimed) && Members(claimed) <= batch.live && batch.minted == {} == batch.unminted
    ensures Moved(play, r, s, SettleClaimed(s, claimed, w).0, Rid(batch, claimed), w)
    decreases if |claimed| <= 1 then 0 else 2, 1
  {
    hide At, NoRepeats, Timely, Finalize, Park, GatewayHonest, CompletionsLand, Preflight;
    var answer1 := w.unplaced(s.calls, claimed);
    var (s1, placed) := Preflight(s, claimed, answer1, w);
    var one := PreflightRuns(play, s, batch, claimed, answer1, w);
    var batch1 := batch.(live := batch.live - (Members(claimed) - Members(placed)));
    if placed == [] {
      r := one;
      assert batch1.live == Rid(batch, claimed).live;
    } else {
      var answer2 := w.lapsed(s1.calls, placed);
      var (s2, sent) := Preflight(s1, placed, answer2, w);
      var two := PreflightRuns(one, s1, batch1, placed, answer2, w);
      var batch2 := batch1.(live := batch1.live - (Members(placed) - Members(sent)));
      if sent == [] {
        r := two;
        assert batch2.live == Rid(batch, claimed).live;
      } else {
        r := SentRuns(two, s2, batch2, sent, w);
        assert Rid(batch2, sent).live == Rid(batch, claimed).live;
      }
    }
  }

  /** What a pass does once it has something to send. */
  function AfterSend(s: State, sent: seq<Id>, w: World): State
    requires sent != []
    decreases if |sent| <= 1 then 0 else 2, 0
  {
    match w.chain(s.calls, sent)
    case Refused(deterministic) =>
      if !deterministic then s.Call().Release(sent, w)
      else if |sent| == 1 then s.Call().Write(sent[0], PermanentlyFailed, w)
      else SettleEach(s.Call(), sent, w).0
    case Minted(ids) =>
      var done := Finalize(State(s.rows, s.mints + multiset(ids), s.calls + 1), ids, w);
      var unminted := Without(sent, ids);
      if unminted == [] then done else done.Release(unminted, w)
  }

  lemma {:induction false} SentRuns(play: Play, s: State, batch: Batch, sent: seq<Id>, w: World) returns (r: Play)
    requires At(play, s, batch, w) && Timely(w, batch.startedAt, s.calls) && GatewayHonest(w) && CompletionsLand(w)
    requires sent != [] && NoRepeats(sent) && Members(sent) <= batch.live && batch.minted == {} == batch.unminted
    ensures Moved(play, r, s, AfterSend(s, sent, w), Rid(batch, sent), w)
    decreases if |sent| <= 1 then 0 else 2, 0
  {
    hide At, NoRepeats, Timely, Finalize, CompletionsLand, SettleEach;
    var answer := w.chain(s.calls, sent);
    var out := Sends(play, s, batch, sent, w);
    TimelyLater(w, batch.startedAt, s.calls, s.calls + 1);
    match answer {
      case Refused(deterministic) =>
        assert s.mints + multiset{} == s.mints;
        if deterministic && |sent| > 1 {
          r := EachRuns(out, s.Call(), batch, sent, w);
        } else {
          r := RefusedRuns(out, s, batch, sent, deterministic, w);
        }
      case Minted(ids) =>
        HonestMint(w, s.calls, sent);
        r := MintedRuns(out, State(s.rows, s.mints + multiset(ids), s.calls + 1), Answered(batch, sent, answer), batch, sent, ids, w);
    }
  }

  /** A refusal that no retry can change parks a settlement sent alone; any other releases what
      was sent. */
  lemma RefusedRuns(play: Play, s: State, batch: Batch, sent: seq<Id>, deterministic: bool, w: World) returns (r: Play)
    requires sent != [] && (deterministic ==> |sent| == 1) && Members(sent) <= batch.live && batch.minted == {} == batch.unminted
    requires At(play, s.Call(), Answered(batch, sent, Refused(deterministic)), w) && Timely(w, batch.startedAt, s.calls + 1)
    ensures Moved(play, r, s, if deterministic then s.Call().Write(sent[0], PermanentlyFailed, w) else s.Call().Release(sent, w),
                  Rid(batch, sent), w)
  {
    hide At, Timely;
    TimelyLater(w, batch.startedAt, s.calls + 1, s.calls + 2);
    if deterministic {
      r := ParksOne(play, s.Call(), batch, sent[0], w);
      assert Members(sent) == {sent[0]};
    } else {
      var refused := Answered(batch, sent, Refused(false));
      r := Releases(play, s.Call(), refused, sent, w);
      assert refused.(unminted := refused.unminted - Members(sent)) == Rid(batch, sent);
    }
  }

  lemma HonestMint(w: World, n: nat, sent: seq<Id>)
    requires GatewayHonest(w) && NoRepeats(sent) && w.chain(n, sent).Minted?
    ensures NoRepeats(w.chain(n, sent).ids) && Members(w.chain(n, sent).ids) <= Members(sent)
  {
    hide NoRepeats;
  }

  /** Completing what was minted and releasing the rest. */
  lemma MintedRuns(play: Play, s: State, out: Batch, batch: Batch, sent: seq<Id>, ids: seq<Id>, w: World) returns (r: Play)
    requires At(play, s, out, w) && Timely(w, batch.startedAt, s.calls) && CompletionsLand(w)
    requires out == Answered(batch, sent, Minted(ids)) && batch.minted == {} == batch.unminted
    requires NoRepeats(ids) && Members(ids) <= Members(sent)
    ensures var done := Finalize(s, ids, w);
      Moved(play, r, s, if Without(sent, ids) == [] then done else done.Release(Without(sent, ids), w), Rid(batch, sent), w)
  {
    hide At, NoRepeats, Timely, Finalize, CompletionsLand;
    var done := Finalize(s, ids, w);
    var unminted := Without(sent, ids);
    r := FinalizesRun(play, s, out, ids, w);
    var completed := out.(minted := out.minted - Members(ids));
    assert out.minted - Members(ids) == {} && Members(unminted) == Members(sent) - Members(ids);
    if unminted != [] {
      r := Releases(r, done, completed, unminted, w);
      TimelyLater(w, batch.startedAt, done.calls, done.calls + 1);
      assert completed.(unminted := completed.unminted - Members(unminted)) == Rid(batch, sent);
    } else {
      assert Members(unminted) == {};
      assert completed == Rid(batch, sent);
    }
  }

  lemma {:induction false} EachRuns(play: Play, s: State, batch: Batch, sent: seq<Id>, w: World) returns (r: Play)
    requires At(play, s, batch, w) && Timely(w, batch.startedAt, s.calls) && GatewayHonest(w) && CompletionsLand(w)
    requires NoRepeats(sent) && Members(sent) <= batch.live && batch.minted == {} == batch.unminted
    ensures Moved(play, r, s, SettleEach(s, sent, w).0, Rid(batch, sent), w)
    decreases 1, |sent|
  {
    hide At, Timely, GatewayHonest, CompletionsLand, SettleClaimed;
    if sent == [] {
      r := play;
      assert Rid(batch, sent) == batch;
    } else {
      var n := |sent| - 1;
      MembersSplit(sent);
      var before := EachRuns(play, s, batch, sent[..n], w);
      var last := [sent[n]];
      assert Members(last) == {sent[n]};
      r := PassRuns(before, SettleEach(s, sent[..n], w).0, Rid(batch, sent[..n]), last, w);
      assert Rid(Rid(batch, sent[..n]), last) == Rid(batch, sent);
    }
  }

  /** For every honest world whose completions land and whose clock keeps the pass inside the
      stale window, a claim pass is a run of the protocol: the same rows and the same mints,
      with nothing left in flight. */
  lemma ClaimPassIsARun(s: State, ids: seq<Id>, w: World, now: int) returns (steps: seq<Step>)
    requires GatewayHonest(w) && CompletionsLand(w) && Timely(w, w.clock(s.calls), s.calls) && now <= w.clock(s.calls)
    ensures var p, r := Proto(s.rows, map[], s.mints, now), ClaimPass(s, ids, w).0;
      && CanRun(p, steps, Both)
      && After(p, steps) == Proto(r.rows, map[], r.mints, After(p, steps).now)
  {
    hide CanRun, After, NoRepeats, GatewayHonest, CompletionsLand, SettleClaimed;
    var p := Proto(s.rows, map[], s.mints, now);
    var claimed := Claimable(s.rows, ids);
    NoSteps(p, Both);
    var began := Take(Play(p, []), Advance(w.clock(s.calls)));
    var taken := Take(began, ClaimBatch(0, ids));
    var batch := Batch(Members(claimed), {}, {}, w.clock(s.calls));
    assert map[][0 := batch] == map[0 := batch];
    var start := State(Claim(s.rows, ids, w.clock(s.calls)), s.mints, s.calls + 1);
    assert w.clock(s.calls) <= w.clock(s.calls + 1);
    ClaimTakes(s.rows, ids, w.clock(s.calls));
    TimelyLater(w, w.clock(s.calls), s.calls, s.calls + 1);
    var ended := taken;
    if claimed != [] {
      ended := PassRuns(taken, start, batch, claimed, w);
    }
    var rid := Rid(batch, claimed);
    assert claimed == [] ==> rid == batch;
    assert At(ended, ClaimPass(s, ids, w).0, rid, w);
    assert rid.minted == {};
    var gone := Take(ended, Vanish(0));
    assert map[0 := rid] - {0} == map[];
    steps := gone.steps;
  }
}
