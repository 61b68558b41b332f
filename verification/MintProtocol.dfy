/** Settlement under concurrency: worker passes, RPC batches and stale reclaims interleave step
    by step over the same rows, against a chain that may answer anything its contract allows. */
module MintProtocol {
  import opened Options
  import opened SettlementSpec
  import opened SettlementTheorems

  /** A claimed batch in flight: not yet sent, minted but not yet completed, and sent but not
      minted. */
  datatype Batch = Batch(live: set<Id>, minted: set<Id>, unminted: set<Id>, startedAt: int) {
    function Held(): set<Id> { live + minted + unminted }
  }

  datatype Proto = Proto(rows: Rows, flights: map<nat, Batch>, mints: multiset<Id>, now: int)

  /** The operating assumptions: a pass finishes inside the stale window, and one that has
      minted writes its completions before it can die. */
  datatype Assumptions = Assumptions(windowed: bool, completes: bool)

  datatype Step =
    | Arrive(id: Id)
    | ClaimBatch(batch: nat, ids: seq<Id>)
    | ParkOne(batch: nat, parked: Id, landed: bool)
    | Send(batch: nat, sent: seq<Id>, answer: ChainAnswer)
    | CompleteOne(batch: nat, done: Id)
    | ReleaseUnminted(batch: nat, released: seq<Id>, landed: bool)
    | Vanish(batch: nat)
    | ReclaimStale
    | Advance(time: int)

  function Members(ids: seq<Id>): set<Id> { set id | id in ids }

  /** The step can be taken. A `Vanish` is the end of a pass, or the death of its process. */
  ghost predicate Enabled(s: Proto, step: Step, a: Assumptions) {
    match step
    case Arrive(id) => id !in s.rows && s.mints[id] == 0
    case ClaimBatch(b, ids) => b !in s.flights
    case ParkOne(b, id, _) => b in s.flights && id in s.flights[b].live
    case Send(b, sent, answer) =>
      && b in s.flights && NoRepeats(sent) && (forall id :: id in sent ==> id in s.flights[b].live)
      && (answer.Minted? ==> NoRepeats(answer.ids) && forall id :: id in answer.ids ==> id in sent)
    case CompleteOne(b, id) => b in s.flights && id in s.flights[b].minted
    case ReleaseUnminted(b, ids, _) => b in s.flights && forall id :: id in ids ==> id in s.flights[b].unminted
    case Vanish(b) => b in s.flights && (a.completes ==> s.flights[b].minted == {})
    case ReclaimStale => true
    case Advance(time) =>
      s.now <= time && (a.windowed ==> forall b :: b in s.flights ==> time - s.flights[b].startedAt <= STALE_PROCESSING_SECS)
  }

  function Apply(s: Proto, step: Step): Proto {
    match step
    case Arrive(id) => s.(rows := s.rows[id := Row(Pending, 0, s.now)])
    case ClaimBatch(b, ids) =>
      s.(rows := Claim(s.rows, ids, s.now), flights := s.flights[b := Batch(Members(Claimable(s.rows, ids)), {}, {}, s.now)])
    case ParkOne(b, id, landed) =>
      if b !in s.flights then s
      else
        s.(rows := if landed then SetStatus(s.rows, id, PermanentlyFailed, s.now) else s.rows,
           flights := s.flights[b := s.flights[b].(live := s.flights[b].live - {id})])
    case Send(b, sent, answer) =>
      if b !in s.flights then s
      else
        var f := s.flights[b];
        match answer {
          case Minted(ids) =>
            s.(flights := s.flights[b := f.(live := f.live - Members(sent), minted := f.minted + Members(ids),
                                            unminted := f.unminted + (Members(sent) - Members(ids)))],
               mints := s.mints + multiset(ids))
          case Refused(deterministic) =>
            if deterministic then s
            else s.(flights := s.flights[b := f.(live := f.live - Members(sent), unminted := f.unminted + Members(sent))])
        }
    case CompleteOne(b, id) =>
      if b !in s.flights then s
      else
        s.(rows := SetStatus(s.rows, id, Completed, s.now),
           flights := s.flights[b := s.flights[b].(minted := s.flights[b].minted - {id})])
    case ReleaseUnminted(b, ids, landed) =>
      if b !in s.flights then s
      else
        s.(rows := if landed then Reset(s.rows, ids, s.now) else s.rows,
           flights := s.flights[b := s.flights[b].(unminted := s.flights[b].unminted - Members(ids))])
    case Vanish(b) => s.(flights := s.flights - {b})
    case ReclaimStale => s.(rows := Reclaim(s.rows, s.now))
    case Advance(time) => s.(now := time)
  }

  // ---------- The invariant ----------

  /** A batch in flight: its rows are processing since it started, inside the stale window, and
      exactly its minted ones have been minted. */
  ghost predicate FlightOk(s: Proto, f: Batch) {
    && f.live !! f.minted && f.live !! f.unminted && f.minted !! f.unminted
    && (forall id :: id in f.Held() ==> id in s.rows && s.rows[id].status == Processing && s.rows[id].updatedAt == f.startedAt)
    && (forall id :: id in f.Held() ==> s.mints[id] == if id in f.minted then 1 else 0)
    && f.startedAt <= s.now <= f.startedAt + STALE_PROCESSING_SECS
  }

  ghost predicate FlightsOk(s: Proto) {
    forall b :: b in s.flights ==> FlightOk(s, s.flights[b])
  }

  /** No settlement is in two batches. */
  ghost predicate Disjoint(s: Proto) {
    forall b, c :: b in s.flights && c in s.flights && b != c ==> s.flights[b].Held() !! s.flights[c].Held()
  }

  ghost predicate InFlightMinted(s: Proto, id: Id) {
    exists b :: b in s.flights && id in s.flights[b].minted
  }

  /** Nothing is minted twice, and what was minted is completed or about to be. */
  ghost predicate Accounted(s: Proto) {
    forall id :: s.mints[id] > 0 ==>
      s.mints[id] == 1 && id in s.rows && (s.rows[id].status == Completed || InFlightMinted(s, id))
  }

  ghost predicate Safe(s: Proto) { FlightsOk(s) && Disjoint(s) && Accounted(s) }

  const Both := Assumptions(true, true)

  /** A step that mints nothing keeps the account, if what was completed stays so and what was
      in flight stays there or is completed. */
  lemma AccountKept(s: Proto, r: Proto)
    requires Accounted(s) && r.mints == s.mints && s.rows.Keys <= r.rows.Keys
    requires forall id :: id in s.rows && s.mints[id] > 0 && s.rows[id].status == Completed ==> r.rows[id].status == Completed
    requires forall b, id :: b in s.flights && id in s.flights[b].minted && id in r.rows ==>
      r.rows[id].status == Completed || (b in r.flights && id in r.flights[b].minted)
    ensures Accounted(r)
  {
    forall id | r.mints[id] > 0
      ensures r.mints[id] == 1 && id in r.rows && (r.rows[id].status == Completed || InFlightMinted(r, id))
    {
      if s.rows[id].status != Completed {
        var b :| b in s.flights && id in s.flights[b].minted;
      }
    }
  }

  /** Batches that only let go of settlements stay disjoint. */
  lemma DisjointKept(s: Proto, r: Proto)
    requires Disjoint(s)
    requires forall b :: b in r.flights ==> b in s.flights && r.flights[b].Held() <= s.flights[b].Held()
    ensures Disjoint(r)
  {
  }

  /** A step on batch `b` that changes rows and mint counts of its own settlements only leaves
      every other batch as it was. */
  lemma OthersFramed(s: Proto, r: Proto, b: nat, touched: set<Id>)
    requires FlightsOk(s) && Disjoint(s) && b in s.flights && touched <= s.flights[b].Held() && r.now == s.now
    requires forall id :: id in s.rows && id !in touched ==> id in r.rows && r.rows[id] == s.rows[id]
    requires forall id :: id !in touched ==> r.mints[id] == s.mints[id]
    requires forall c :: c in r.flights && c != b ==> c in s.flights && r.flights[c] == s.flights[c]
    ensures forall c :: c in r.flights && c != b ==> FlightOk(r, r.flights[c])
  {
    forall c | c in r.flights && c != b ensures FlightOk(r, r.flights[c]) {
      assert FlightOk(s, s.flights[c]);
      assert s.flights[b].Held() !! s.flights[c].Held();
    }
  }

  /** A batch that lets go of some settlements, the only ones whose rows changed, stays in order. */
  lemma OwnFramed(s: Proto, r: Proto, f: Batch, g: Batch, gone: set<Id>)
    requires FlightOk(s, f) && r.now == s.now && r.mints == s.mints && g.startedAt == f.startedAt
    requires g.live <= f.live && g.minted <= f.minted && g.unminted <= f.unminted
    requires forall id :: id in gone ==> id !in g.live && id !in g.minted && id !in g.unminted
    requires forall id :: id in s.rows && id !in gone ==> id in r.rows && r.rows[id] == s.rows[id]
    ensures FlightOk(r, g) && g.Held() <= f.Held()
  {
  }

  lemma FlightsJoin(r: Proto, b: nat)
    requires forall c :: c in r.flights && c != b ==> FlightOk(r, r.flights[c])
    requires b in r.flights ==> FlightOk(r, r.flights[b])
    ensures FlightsOk(r)
  {
  }

  lemma OwnFacts(s: Proto, b: nat)
    requires FlightsOk(s) && b in s.flights
    ensures FlightOk(s, s.flights[b])
    ensures forall id :: id in s.flights[b].Held() ==> id in s.rows && s.rows[id].status == Processing
    ensures forall id :: id in s.flights[b].minted ==> id !in s.flights[b].live && id !in s.flights[b].unminted
    ensures forall id :: id in s.flights[b].unminted || id in s.flights[b].live ==> id !in s.flights[b].minted
    ensures forall id :: id in s.flights[b].live ==> id !in s.flights[b].unminted
  {
  }

  /** A pending row is in no batch and was never minted. */
  lemma PendingIsFree(s: Proto, id: Id)
    requires Safe(s) && id in s.rows && s.rows[id].status == Pending
    ensures s.mints[id] == 0 && forall b :: b in s.flights ==> id !in s.flights[b].Held()
  {
    forall b | b in s.flights ensures id !in s.flights[b].Held() {
      assert FlightOk(s, s.flights[b]);
    }
    assert !InFlightMinted(s, id) by { assert forall b :: b in s.flights ==> s.flights[b].minted <= s.flights[b].Held(); }
  }

  lemma ClaimSafe(s: Proto, b: nat, ids: seq<Id>)
    requires Safe(s) && Enabled(s, ClaimBatch(b, ids), Both)
    ensures Safe(Apply(s, ClaimBatch(b, ids)))
  {
    hide Claimable, NoRepeats, Accounted, Disjoint, FlightOk;
    ClaimTakes(s.rows, ids, s.now);
    var r := Apply(s, ClaimBatch(b, ids));
    var claimed := Claimable(s.rows, ids);
    forall id | id in claimed ensures s.mints[id] == 0 && forall c :: c in s.flights ==> id !in s.flights[c].Held() {
      PendingIsFree(s, id);
    }
    ClaimFlights(s, b, ids);
    ClaimDisjoint(s, r, b);
    ClaimAccounts(s, b, ids);
  }

  lemma ClaimFlights(s: Proto, b: nat, ids: seq<Id>)
    requires FlightsOk(s) && b !in s.flights
    requires forall id :: id in Claimable(s.rows, ids) ==> s.mints[id] == 0
    requires forall id, c :: id in Claimable(s.rows, ids) && c in s.flights ==> id !in s.flights[c].Held()
    ensures FlightsOk(Apply(s, ClaimBatch(b, ids)))
  {
    hide Claimable, NoRepeats;
    ClaimTakes(s.rows, ids, s.now);
    var r := Apply(s, ClaimBatch(b, ids));
    forall c | c in s.flights ensures FlightOk(r, s.flights[c]) {
      assert FlightOk(s, s.flights[c]);
    }
    assert FlightOk(r, r.flights[b]);
  }

  lemma ClaimDisjoint(s: Proto, r: Proto, b: nat)
    requires Disjoint(s) && b !in s.flights && b in r.flights && r.flights == s.flights[b := r.flights[b]]
    requires forall id, c :: id in r.flights[b].Held() && c in s.flights ==> id !in s.flights[c].Held()
    ensures Disjoint(r)
  {
  }

  lemma ClaimAccounts(s: Proto, b: nat, ids: seq<Id>)
    requires Accounted(s) && FlightsOk(s) && b !in s.flights
    ensures Accounted(Apply(s, ClaimBatch(b, ids)))
  {
    hide Claimable, FlightOk;
    AccountKept(s, Apply(s, ClaimBatch(b, ids)));
  }

  lemma ParkSafe(s: Proto, b: nat, id: Id, landed: bool)
    requires Safe(s) && Enabled(s, ParkOne(b, id, landed), Both)
    ensures Safe(Apply(s, ParkOne(b, id, landed)))
  {
    hide Accounted, FlightOk, Disjoint, FlightsOk;
    var r := Apply(s, ParkOne(b, id, landed));
    OwnFacts(s, b);
    OthersFramed(s, r, b, {id});
    OwnFramed(s, r, s.flights[b], r.flights[b], {id});
    FlightsJoin(r, b);
    DisjointKept(s, r);
    AccountKept(s, r);
  }

  lemma SendSafe(s: Proto, b: nat, sent: seq<Id>, answer: ChainAnswer)
    requires Safe(s) && Enabled(s, Send(b, sent, answer), Both)
    ensures Safe(Apply(s, Send(b, sent, answer)))
  {
    var r := Apply(s, Send(b, sent, answer));
    SendKeepsHeld(s, b, sent, answer);
    DisjointKept(s, r);
    SendFlights(s, b, sent, answer);
    if answer.Minted? {
      SendAccounts(s, b, sent, answer);
    } else {
      AccountKept(s, r);
    }
  }

  lemma SendKeepsHeld(s: Proto, b: nat, sent: seq<Id>, answer: ChainAnswer)
    requires Enabled(s, Send(b, sent, answer), Both)
    ensures var r := Apply(s, Send(b, sent, answer));
      && r.rows == s.rows && r.now == s.now && r.flights.Keys == s.flights.Keys
      && (forall c :: c in r.flights ==> r.flights[c].Held() <= s.flights[c].Held() && (c != b ==> r.flights[c] == s.flights[c]))
  {
  }

  lemma MintCounts(s: Proto, b: nat, sent: seq<Id>, answer: ChainAnswer)
    requires Enabled(s, Send(b, sent, answer), Both) && answer.Minted?
    ensures forall id :: Apply(s, Send(b, sent, answer)).mints[id] == s.mints[id] + if id in answer.ids then 1 else 0
  {
    forall id ensures Apply(s, Send(b, sent, answer)).mints[id] == s.mints[id] + if id in answer.ids then 1 else 0 {
      CountOnce(answer.ids, id);
    }
  }

  lemma SendFlights(s: Proto, b: nat, sent: seq<Id>, answer: ChainAnswer)
    requires FlightsOk(s) && Disjoint(s) && Enabled(s, Send(b, sent, answer), Both)
    ensures FlightsOk(Apply(s, Send(b, sent, answer)))
  {
    hide NoRepeats, Accounted, FlightOk, FlightsOk, Disjoint;
    var r := Apply(s, Send(b, sent, answer));
    OwnFacts(s, b);
    SendKeepsHeld(s, b, sent, answer);
    if answer.Minted? {
      MintCounts(s, b, sent, answer);
    }
    OthersFramed(s, r, b, if answer.Minted? then Members(answer.ids) else {});
    SendOwn(s, r, b, sent, answer);
    FlightsJoin(r, b);
  }

  lemma SendOwn(s: Proto, r: Proto, b: nat, sent: seq<Id>, answer: ChainAnswer)
    requires Enabled(s, Send(b, sent, answer), Both) && FlightOk(s, s.flights[b]) && r == Apply(s, Send(b, sent, answer))
    requires forall id :: r.mints[id] == s.mints[id] + if answer.Minted? && id in answer.ids then 1 else 0
    ensures b in r.flights && FlightOk(r, r.flights[b])
  {
    hide NoRepeats;
  }

  lemma SendAccounts(s: Proto, b: nat, sent: seq<Id>, answer: ChainAnswer)
    requires FlightsOk(s) && Accounted(s) && Enabled(s, Send(b, sent, answer), Both) && answer.Minted?
    ensures Accounted(Apply(s, Send(b, sent, answer)))
  {
    hide NoRepeats;
    var r := Apply(s, Send(b, sent, answer));
    MintCounts(s, b, sent, answer);
    assert FlightOk(s, s.flights[b]);
    forall id | r.mints[id] > 0
      ensures r.mints[id] == 1 && id in r.rows && (r.rows[id].status == Completed || InFlightMinted(r, id))
    {
      if id in answer.ids {
        assert id in s.flights[b].live && id in s.flights[b].Held();
        assert id in r.flights[b].minted;
      } else if s.rows[id].status != Completed {
        var c :| c in s.flights && id in s.flights[c].minted;
        assert c in r.flights && id in r.flights[c].minted;
      }
    }
  }

  lemma CompleteSafe(s: Proto, b: nat, id: Id)
    requires Safe(s) && Enabled(s, CompleteOne(b, id), Both)
    ensures Safe(Apply(s, CompleteOne(b, id)))
  {
    hide Accounted, FlightOk, Disjoint, FlightsOk;
    var r := Apply(s, CompleteOne(b, id));
    OwnFacts(s, b);
    OthersFramed(s, r, b, {id});
    OwnFramed(s, r, s.flights[b], r.flights[b], {id});
    FlightsJoin(r, b);
    DisjointKept(s, r);
    AccountKept(s, r);
  }

  lemma ReleaseSafe(s: Proto, b: nat, ids: seq<Id>, landed: bool)
    requires Safe(s) && Enabled(s, ReleaseUnminted(b, ids, landed), Both)
    ensures Safe(Apply(s, ReleaseUnminted(b, ids, landed)))
  {
    hide Accounted, FlightOk, Disjoint, FlightsOk;
    var r := Apply(s, ReleaseUnminted(b, ids, landed));
    OwnFacts(s, b);
    OthersFramed(s, r, b, Members(ids));
    OwnFramed(s, r, s.flights[b], r.flights[b], Members(ids));
    FlightsJoin(r, b);
    DisjointKept(s, r);
    AccountKept(s, r);
  }

  lemma VanishSafe(s: Proto, b: nat)
    requires Safe(s) && Enabled(s, Vanish(b), Both)
    ensures Safe(Apply(s, Vanish(b)))
  {
    hide Accounted;
    var r := Apply(s, Vanish(b));
    forall c | c in r.flights ensures FlightOk(r, r.flights[c]) {
      assert FlightOk(s, s.flights[c]);
    }
    DisjointKept(s, r);
    AccountKept(s, r);
  }

  /** Inside the stale window, a reclaim never touches a row in flight. */
  lemma ReclaimSafe(s: Proto)
    requires Safe(s)
    ensures Safe(Apply(s, ReclaimStale))
  {
    hide Accounted;
    var r := Apply(s, ReclaimStale);
    forall c | c in r.flights ensures FlightOk(r, r.flights[c]) {
      assert FlightOk(s, s.flights[c]);
    }
    DisjointKept(s, r);
    AccountKept(s, r);
  }

  lemma TimeAndArrivalSafe(s: Proto, step: Step)
    requires Safe(s) && Enabled(s, step, Both) && (step.Arrive? || step.Advance?)
    ensures Safe(Apply(s, step))
  {
    hide Accounted;
    var r := Apply(s, step);
    forall c | c in r.flights ensures FlightOk(r, r.flights[c]) {
      assert FlightOk(s, s.flights[c]);
    }
    DisjointKept(s, r);
    AccountKept(s, r);
  }

  /** Every step keeps the protocol safe. */
  lemma StepKeepsSafe(s: Proto, step: Step)
    requires Safe(s) && Enabled(s, step, Both)
    ensures Safe(Apply(s, step))
  {
    hide Safe, Apply, Enabled;
    match step
    case ClaimBatch(b, ids) => ClaimSafe(s, b, ids);
    case ParkOne(b, id, landed) => ParkSafe(s, b, id, landed);
    case Send(b, sent, answer) => SendSafe(s, b, sent, answer);
    case CompleteOne(b, id) => CompleteSafe(s, b, id);
    case ReleaseUnminted(b, ids, landed) => ReleaseSafe(s, b, ids, landed);
    case Vanish(b) => VanishSafe(s, b);
    case ReclaimStale => ReclaimSafe(s);
    case Arrive(_) => TimeAndArrivalSafe(s, step);
    case Advance(_) => TimeAndArrivalSafe(s, step);
  }

  // ---------- Whole runs ----------

  const Fresh := Proto(map[], map[], multiset{}, 0)

  /** Take the steps in order; each must be enabled where it is taken. */
  ghost predicate CanRun(s: Proto, steps: seq<Step>, a: Assumptions)
    decreases |steps|
  {
    steps == [] || (Enabled(s, steps[0], a) && CanRun(Apply(s, steps[0]), steps[1..], a))
  }

  function After(s: Proto, steps: seq<Step>): Proto
    decreases |steps|
  {
    if steps == [] then s else After(Apply(s, steps[0]), steps[1..])
  }

  lemma {:induction false} RunKeepsSafe(s: Proto, steps: seq<Step>)
    requires Safe(s) && CanRun(s, steps, Both)
    ensures Safe(After(s, steps))
    decreases |steps|
  {
    hide Safe, Apply, Enabled;
    if steps != [] {
      StepKeepsSafe(s, steps[0]);
      RunKeepsSafe(Apply(s, steps[0]), steps[1..]);
    }
  }

  /** In every interleaving of worker passes, RPC batches and stale reclaims, no settlement is
      ever in two batches in flight, and none is minted twice. */
  lemma NeverMintedTwice(steps: seq<Step>)
    requires CanRun(Fresh, steps, Both)
    ensures var s := After(Fresh, steps);
      && Disjoint(s) && forall id :: s.mints[id] <= 1
  {
    RunKeepsSafe(Fresh, steps);
  }

  // ---------- Both assumptions are needed ----------

  lemma ConsRun(s: Proto, step: Step, rest: seq<Step>, a: Assumptions)
    requires Enabled(s, step, a) && CanRun(Apply(s, step), rest, a)
    ensures CanRun(s, [step] + rest, a) && After(s, [step] + rest) == After(Apply(s, step), rest)
  {
    assert ([step] + rest)[1..] == rest;
  }

  /** One settlement, alone in the table. */
  function Lone(status: Status, retries: int, at: int): Rows { map[7 := Row(status, retries, at)] }

  lemma ClaimLone(flights: map<nat, Batch>, mints: multiset<Id>, retries: int, at: int, now: int, b: nat)
    ensures Apply(Proto(Lone(Pending, retries, at), flights, mints, now), ClaimBatch(b, [7]))
         == Proto(Lone(Processing, retries, now), flights[b := Batch({7}, {}, {}, now)], mints, now)
  {
    var rows := Lone(Pending, retries, at);
    assert [7][..0] == [] && Claimable(rows, []) == [];
    assert Claimable(rows, [7]) == [] + [7];
    assert Members(Claimable(rows, [7])) == {7};
    assert Claim(rows, [7], now) == Lone(Processing, retries, now);
  }

  lemma ReclaimLone(flights: map<nat, Batch>, mints: multiset<Id>)
    ensures Apply(Proto(Lone(Processing, 0, 0), flights, mints, 301), ReclaimStale)
         == Proto(Lone(Pending, 1, 301), flights, mints, 301)
  {
    assert Reclaim(Lone(Processing, 0, 0), 301) == Lone(Pending, 1, 301);
  }

  lemma MintLone(s: Proto, b: nat, a: Assumptions)
    requires b in s.flights && s.flights[b].live == {7} && s.flights[b].minted == {} && s.flights[b].unminted == {}
    ensures var step := Send(b, [7], Minted([7]));
      && Enabled(s, step, a)
      && Apply(s, step) == s.(flights := s.flights[b := s.flights[b].(live := {}, minted := {7})], mints := s.mints + multiset{7})
  {
    var f := s.flights[b];
    assert NoRepeats([7]) && Members([7]) == {7} && multiset([7]) == multiset{7};
    assert f.live - {7} == {} && f.minted + {7} == {7} && f.unminted + ({7} - {7}) == f.unminted;
  }

  /** Claim again after the window and mint, in a table whose row has sat in processing. */
  lemma SecondMint(flights: map<nat, Batch>, mints: multiset<Id>, rest: seq<Step>, a: Assumptions)
    requires 1 !in flights
    requires var s := Proto(Lone(Processing, 1, 301), flights[1 := Batch({}, {7}, {}, 301)], mints + multiset{7}, 301); CanRun(s, rest, a)
    ensures var s := Proto(Lone(Processing, 0, 0), flights, mints, 301);
      var steps := [ReclaimStale] + ([ClaimBatch(1, [7])] + ([Send(1, [7], Minted([7]))] + rest));
      && CanRun(s, steps, a)
      && After(s, steps)
         == After(Proto(Lone(Processing, 1, 301), flights[1 := Batch({}, {7}, {}, 301)], mints + multiset{7}, 301), rest)
  {
    hide CanRun, After, Apply;
    var s0 := Proto(Lone(Processing, 0, 0), flights, mints, 301);
    var s1 := Proto(Lone(Pending, 1, 301), flights, mints, 301);
    var s2 := Proto(Lone(Processing, 1, 301), flights[1 := Batch({7}, {}, {}, 301)], mints, 301);
    ReclaimLone(flights, mints);
    ClaimLone(flights, mints, 1, 301, 301, 1);
    MintLone(s2, 1, a);
    assert s2.flights[1 := s2.flights[1].(live := {}, minted := {7})] == flights[1 := Batch({}, {7}, {}, 301)];
    ConsRun(s2, Send(1, [7], Minted([7])), rest, a);
    ConsRun(s1, ClaimBatch(1, [7]), [Send(1, [7], Minted([7]))] + rest, a);
    ConsRun(s0, ReclaimStale, [ClaimBatch(1, [7])] + ([Send(1, [7], Minted([7]))] + rest), a);
  }

  lemma NoSteps(s: Proto, a: Assumptions)
    ensures CanRun(s, [], a) && After(s, []) == s
  {
  }

  /** The window is needed: a pass slower than it has its rows reclaimed and claimed again, and
      both passes mint. */
  lemma SlowPassMintsTwice() returns (steps: seq<Step>)
    ensures CanRun(Fresh, steps, Assumptions(false, true)) && After(Fresh, steps).mints[7] == 2
  {
    hide CanRun, After, Apply;
    var a := Assumptions(false, true);
    var first := Batch({7}, {}, {}, 0);
    var s1 := Proto(Lone(Pending, 0, 0), map[], multiset{}, 0);
    var s2 := Proto(Lone(Processing, 0, 0), map[0 := first], multiset{}, 0);
    var late := Proto(Lone(Processing, 1, 301), map[0 := first, 1 := Batch({}, {7}, {}, 301)], multiset{7}, 301);
    MintLone(late, 0, a);
    NoSteps(Apply(late, Send(0, [7], Minted([7]))), a);
    ConsRun(late, Send(0, [7], Minted([7])), [], a);
    assert map[0 := first][1 := Batch({}, {7}, {}, 301)] == late.flights && multiset{} + multiset{7} == multiset{7};
    var tail := [Send(0, [7], Minted([7]))] + [];
    SecondMint(map[0 := first], multiset{}, tail, a);
    steps := [ReclaimStale] + ([ClaimBatch(1, [7])] + ([Send(1, [7], Minted([7]))] + tail));
    ApplyAdvance(s2, 301);
    ConsRun(s2, Advance(301), steps, a);
    steps := [Advance(301)] + steps;
    ClaimLone(map[], multiset{}, 0, 0, 0, 0);
    ConsRun(s1, ClaimBatch(0, [7]), steps, a);
    steps := [ClaimBatch(0, [7])] + steps;
    ApplyArrive();
    ConsRun(Fresh, Arrive(7), steps, a);
    steps := [Arrive(7)] + steps;
  }

  lemma ApplyAdvance(s: Proto, time: int)
    ensures Apply(s, Advance(time)) == s.(now := time)
  {
  }

  lemma ApplyArrive()
    ensures Apply(Fresh, Arrive(7)) == Proto(Lone(Pending, 0, 0), map[], multiset{}, 0)
  {
  }

  lemma ApplyVanish(s: Proto, b: nat)
    ensures Apply(s, Vanish(b)) == s.(flights := s.flights - {b})
  {
  }

  /** So is the landed completion: a process that dies between the mint and its completion
      leaves a minted row in processing, and after the window it is reclaimed and minted again. */
  lemma LostCompletionMintsTwice() returns (steps: seq<Step>)
    ensures CanRun(Fresh, steps, Assumptions(true, false)) && After(Fresh, steps).mints[7] == 2
  {
    hide CanRun, After, Apply;
    var a := Assumptions(true, false);
    var s1 := Proto(Lone(Pending, 0, 0), map[], multiset{}, 0);
    var s2 := Proto(Lone(Processing, 0, 0), map[0 := Batch({7}, {}, {}, 0)], multiset{}, 0);
    var s3 := Proto(Lone(Processing, 0, 0), map[0 := Batch({}, {7}, {}, 0)], multiset{7}, 0);
    var s4 := Proto(Lone(Processing, 0, 0), map[], multiset{7}, 0);
    var end := Proto(Lone(Processing, 1, 301), map[1 := Batch({}, {7}, {}, 301)], multiset{7} + multiset{7}, 301);
    NoSteps(end, a);
    assert map[][1 := Batch({}, {7}, {}, 301)] == end.flights;
    SecondMint(map[], multiset{7}, [], a);
    steps := [ReclaimStale] + ([ClaimBatch(1, [7])] + ([Send(1, [7], Minted([7]))] + []));
    ApplyAdvance(s4, 301);
    ConsRun(s4, Advance(301), steps, a);
    steps := [Advance(301)] + steps;
    ApplyVanish(s3, 0);
    assert s3.flights - {0} == map[];
    ConsRun(s3, Vanish(0), steps, a);
    steps := [Vanish(0)] + steps;
    MintLone(s2, 0, a);
    assert multiset{} + multiset{7} == multiset{7} && s2.flights[0 := Batch({}, {7}, {}, 0)] == s3.flights;
    ConsRun(s2, Send(0, [7], Minted([7])), steps, a);
    steps := [Send(0, [7], Minted([7]))] + steps;
    ClaimLone(map[], multiset{}, 0, 0, 0, 0);
    ConsRun(s1, ClaimBatch(0, [7]), steps, a);
    steps := [ClaimBatch(0, [7])] + steps;
    ApplyArrive();
    ConsRun(Fresh, Arrive(7), steps, a);
    steps := [Arrive(7)] + steps;
  }

  /** What can happen under the stronger assumptions can happen under weaker ones. */
  lemma {:induction false} WeakerRuns(s: Proto, steps: seq<Step>, a: Assumptions, weaker: Assumptions)
    requires (weaker.windowed ==> a.windowed) && (weaker.completes ==> a.completes) && CanRun(s, steps, a)
    ensures CanRun(s, steps, weaker)
    decreases |steps|
  {
    hide Apply;
    if steps != [] {
      WeakerRuns(Apply(s, steps[0]), steps[1..], a, weaker);
    }
  }

  /** Under `a` no run ever mints a settlement twice. */
  ghost predicate MintsOnce(a: Assumptions) {
    forall steps: seq<Step> :: CanRun(Fresh, steps, a) ==> forall id :: After(Fresh, steps).mints[id] <= 1
  }

  /** Exactly both assumptions together keep every run from minting twice. */
  lemma MintsOnceExactly(a: Assumptions)
    ensures MintsOnce(a) <==> a == Both
  {
    hide CanRun, After;
    if a == Both {
      forall steps: seq<Step> | CanRun(Fresh, steps, a) ensures forall id :: After(Fresh, steps).mints[id] <= 1 {
        NeverMintedTwice(steps);
      }
    } else if !a.windowed {
      var steps := SlowPassMintsTwice();
      WeakerRuns(Fresh, steps, Assumptions(false, true), a);
    } else {
      var steps := LostCompletionMintsTwice();
      WeakerRuns(Fresh, steps, Assumptions(true, false), a);
    }
  }

  // ---------- The retry budget ----------

  /** A row in its budget; one whose budget is spent is parked. */
  ghost predicate InBudget(r: Row) {
    && 0 <= r.retryCount <= MAX_SETTLEMENT_RETRIES
    && (r.status == Pending || r.status == Processing ==> r.retryCount < MAX_SETTLEMENT_RETRIES)
  }

  ghost predicate BudgetsOk(s: Proto) {
    forall id :: id in s.rows ==> InBudget(s.rows[id])
  }

  /** The step gives this settlement back: a landed release of its batch, or a reclaim past the
      window. */
  predicate GivesBack(s: Proto, step: Step, id: Id) {
    id in s.rows && s.rows[id].status == Processing
    && match step
       case ReleaseUnminted(b, ids, landed) => b in s.flights && landed && id in ids
       case ReclaimStale => s.rows[id].updatedAt < s.now - STALE_PROCESSING_SECS
       case _ => false
  }

  /** The step takes this settlement into a batch: the start of a pass over it. */
  predicate Takes(s: Proto, step: Step, id: Id) {
    step.ClaimBatch? && id in Claimable(s.rows, step.ids)
  }

  function TimesGivenBack(s: Proto, steps: seq<Step>, id: Id): nat
    decreases |steps|
  {
    if steps == [] then 0
    else (if GivesBack(s, steps[0], id) then 1 else 0) + TimesGivenBack(Apply(s, steps[0]), steps[1..], id)
  }

  /** The passes a run starts over this settlement. */
  function Passes(s: Proto, steps: seq<Step>, id: Id): nat
    decreases |steps|
  {
    if steps == [] then 0
    else (if Takes(s, steps[0], id) then 1 else 0) + Passes(Apply(s, steps[0]), steps[1..], id)
  }

  /** The passes still to be had over a settlement: one for each retry left while it is pending,
      one fewer while a pass is on, none once it is terminal. */
  function PassesLeft(s: Proto, id: Id): int {
    if id !in s.rows then MAX_SETTLEMENT_RETRIES
    else
      match s.rows[id].status
      case Pending => MAX_SETTLEMENT_RETRIES - s.rows[id].retryCount
      case Processing => MAX_SETTLEMENT_RETRIES - 1 - s.rows[id].retryCount
      case _ => 0
  }

  lemma StepKeepsBudgets(s: Proto, step: Step, a: Assumptions)
    requires BudgetsOk(s) && Enabled(s, step, a)
    ensures BudgetsOk(Apply(s, step)) && s.rows.Keys <= Apply(s, step).rows.Keys
    ensures forall id :: id in s.rows ==>
      Apply(s, step).rows[id].retryCount == s.rows[id].retryCount + if GivesBack(s, step, id) then 1 else 0
  {
    hide Claimable;
  }

  lemma PassesLeftBounds(s: Proto, id: Id)
    requires BudgetsOk(s)
    ensures 0 <= PassesLeft(s, id) <= MAX_SETTLEMENT_RETRIES
  {
  }

  lemma StepSpendsPass(s: Proto, step: Step, a: Assumptions, id: Id)
    requires BudgetsOk(s) && Enabled(s, step, a)
    ensures (if Takes(s, step, id) then 1 else 0) + PassesLeft(Apply(s, step), id) <= PassesLeft(s, id)
  {
    hide Claimable;
    if step.ClaimBatch? {
      ClaimTakes(s.rows, step.ids, s.now);
    }
  }

  /** In any run, with or without the assumptions and whatever writes are lost, at most five
      passes are ever started over a settlement, and a settlement met midway gets no more than
      its remaining retries allow. */
  lemma {:induction false} PassesAreBounded(s: Proto, steps: seq<Step>, a: Assumptions, id: Id)
    requires BudgetsOk(s) && CanRun(s, steps, a)
    ensures 0 <= PassesLeft(After(s, steps), id) <= PassesLeft(s, id) - Passes(s, steps, id)
    ensures PassesLeft(s, id) <= MAX_SETTLEMENT_RETRIES
    decreases |steps|
  {
    hide Apply, Enabled, Takes;
    PassesLeftBounds(s, id);
    if steps != [] {
      StepKeepsBudgets(s, steps[0], a);
      StepSpendsPass(s, steps[0], a, id);
      PassesAreBounded(Apply(s, steps[0]), steps[1..], a, id);
    }
  }

  /** In any such run a settlement's retry count says how often it was given back, that is at
      most five times, and after the fifth it is never pending or processing again. */
  lemma {:induction false} RetriesAreBounded(s: Proto, steps: seq<Step>, a: Assumptions, id: Id)
    requires BudgetsOk(s) && CanRun(s, steps, a) && id in s.rows
    ensures var r := After(s, steps);
      && id in r.rows && r.rows[id].retryCount == s.rows[id].retryCount + TimesGivenBack(s, steps, id)
      && TimesGivenBack(s, steps, id) <= 5 - s.rows[id].retryCount
      && (r.rows[id].retryCount == 5 ==> r.rows[id].status != Pending && r.rows[id].status != Processing)
    decreases |steps|
  {
    hide Apply, Enabled, GivesBack;
    if steps != [] {
      StepKeepsBudgets(s, steps[0], a);
      RetriesAreBounded(Apply(s, steps[0]), steps[1..], a, id);
    }
  }
}
