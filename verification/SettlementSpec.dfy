/** The settlement rows and what one settlement pass does to them, against an arbitrary world:
    a chain, two pre-flight queries and a database whose writes may fail. */
module SettlementSpec {
  import opened Options

  type Id = nat

  datatype Status = Pending | Processing | Completed | Failed | PermanentlyFailed

  datatype Row = Row(status: Status, retryCount: int, updatedAt: int)

  type Rows = map<Id, Row>

  const MAX_SETTLEMENT_RETRIES: int := 5
  const STALE_PROCESSING_SECS: int := 300

  // ---------- The repository's statements ----------

  /** One more failed attempt: back to pending, or parked once the budget is spent. */
  function Released(r: Row, now: int): Row {
    Row(if r.retryCount + 1 >= MAX_SETTLEMENT_RETRIES then PermanentlyFailed else Pending, r.retryCount + 1, now)
  }

  /** The ids that are pending, each once, in the order asked. */
  function Claimable(rows: Rows, ids: seq<Id>): seq<Id> {
    if ids == [] then []
    else
      var rest := Claimable(rows, ids[..|ids| - 1]);
      var id := ids[|ids| - 1];
      if id in rows && rows[id].status == Pending && id !in rest then rest + [id] else rest
  }

  /** `SET status = 'processing' WHERE id = ANY(ids) AND status = 'pending'`. */
  function Claim(rows: Rows, ids: seq<Id>, now: int): Rows {
    map id | id in rows :: if id in ids && rows[id].status == Pending then rows[id].(status := Processing, updatedAt := now) else rows[id]
  }

  /** Release the given rows that are still processing. */
  function Reset(rows: Rows, ids: seq<Id>, now: int): Rows {
    map id | id in rows :: if id in ids && rows[id].status == Processing then Released(rows[id], now) else rows[id]
  }

  /** Release every row stuck in processing longer than the stale window. */
  function Reclaim(rows: Rows, now: int): Rows {
    map id | id in rows ::
      if rows[id].status == Processing && rows[id].updatedAt < now - STALE_PROCESSING_SECS then Released(rows[id], now) else rows[id]
  }

  function SetStatus(rows: Rows, id: Id, status: Status, now: int): Rows {
    if id in rows then rows[id := rows[id].(status := status, updatedAt := now)] else rows
  }

  // ---------- The world ----------

  /** What the chain answers to a batch: the settlements it minted, or an error, which may be
      a program's final verdict. */
  datatype ChainAnswer = Minted(ids: seq<Id>) | Refused(deterministic: bool)

  datatype QueryAnswer = Found(ids: seq<Id>) | QueryFailed

  /** Every external call is numbered; the world may answer each one as it likes. */
  datatype World = World(
    chain: (nat, seq<Id>) -> ChainAnswer,
    unplaced: (nat, seq<Id>) -> QueryAnswer,
    lapsed: (nat, seq<Id>) -> QueryAnswer,
    writeLands: nat -> bool,
    clock: nat -> int)

  /** The rows, how often the chain minted each settlement, and the number of calls made. */
  datatype State = State(rows: Rows, mints: multiset<Id>, calls: nat) {
    /** A status write that may fail; either way it is one call. */
    function Write(id: Id, status: Status, w: World): State {
      State(if w.writeLands(calls) then SetStatus(rows, id, status, w.clock(calls)) else rows, mints, calls + 1)
    }

    function Release(ids: seq<Id>, w: World): State {
      State(if w.writeLands(calls) then Reset(rows, ids, w.clock(calls)) else rows, mints, calls + 1)
    }

    function Call(): State { this.(calls := calls + 1) }
  }

  // ---------- Pre-flights ----------

  /** Park those of `batch` that are in `doomed`. */
  function Park(s: State, batch: seq<Id>, doomed: seq<Id>, w: World): State {
    if batch == [] then s
    else
      var before := Park(s, batch[..|batch| - 1], doomed, w);
      var id := batch[|batch| - 1];
      if id in doomed then before.Write(id, PermanentlyFailed, w) else before
  }

  function Without(batch: seq<Id>, doomed: seq<Id>): (r: seq<Id>)
    ensures |r| <= |batch|
    ensures forall id :: id in r <==> id in batch && id !in doomed
  {
    if batch == [] then []
    else
      var id := batch[|batch| - 1];
      Without(batch[..|batch| - 1], doomed) + if id in doomed then [] else [id]
  }

  /** One pre-flight: ask which are doomed, park them, go on with the others; when the query
      fails, go on with everything. */
  function Preflight(s: State, batch: seq<Id>, answer: QueryAnswer, w: World): (r: (State, seq<Id>))
    ensures |r.1| <= |batch|
  {
    match answer
    case QueryFailed => (s.Call(), batch)
    case Found(doomed) => if doomed == [] then (s.Call(), batch) else (Park(s.Call(), batch, doomed, w), Without(batch, doomed))
  }

  // ---------- Minting and finalizing ----------

  /** Mark each minted settlement completed, with its event or, failing that, without. */
  function Finalize(s: State, minted: seq<Id>, w: World): State {
    if minted == [] then s
    else
      var before := Finalize(s, minted[..|minted| - 1], w);
      var id := minted[|minted| - 1];
      var once := before.Write(id, Completed, w);
      if w.writeLands(before.calls) then once else once.Write(id, Completed, w)
  }

  /** The outcome of a pass: the settlements minted, or the chain's error. */
  datatype Outcome = Settled(minted: seq<Id>) | Errored

  /** Settle an already claimed batch. */
  function SettleClaimed(s: State, claimed: seq<Id>, w: World): (r: (State, Outcome))
    decreases if |claimed| <= 1 then 0 else 2, 0
  {
    var (s1, placed) := Preflight(s, claimed, w.unplaced(s.calls, claimed), w);
    if placed == [] then (s1, Settled([]))
    else
      var (s2, batch) := Preflight(s1, placed, w.lapsed(s1.calls, placed), w);
      if batch == [] then (s2, Settled([]))
      else
        match w.chain(s2.calls, batch)
        case Refused(deterministic) =>
          if !deterministic then (s2.Call().Release(batch, w), Errored)
          else if |batch| == 1 then (s2.Call().Write(batch[0], PermanentlyFailed, w), Errored)
          else var (s3, minted) := SettleEach(s2.Call(), batch, w); (s3, Settled(minted))
        case Minted(ids) =>
          var s3 := Finalize(State(s2.rows, s2.mints + multiset(ids), s2.calls + 1), ids, w);
          var unminted := Without(batch, ids);
          (if unminted == [] then s3 else s3.Release(unminted, w), Settled(ids))
  }

  /** Settle each entry of a refused batch alone, collecting what was minted. */
  function SettleEach(s: State, batch: seq<Id>, w: World): (r: (State, seq<Id>))
    decreases 1, |batch|
  {
    if batch == [] then (s, [])
    else
      var (before, minted) := SettleEach(s, batch[..|batch| - 1], w);
      var (after, outcome) := SettleClaimed(before, [batch[|batch| - 1]], w);
      (after, minted + match outcome case Settled(ids) => ids case Errored => [])
  }

  /** Settling entries alone, one more at a time. */
  lemma SettleEachStep(s: State, batch: seq<Id>, i: nat, w: World)
    requires i < |batch|
    ensures var (before, minted) := SettleEach(s, batch[..i], w);
      var (after, outcome) := SettleClaimed(before, [batch[i]], w);
      SettleEach(s, batch[..i + 1], w) == (after, minted + if outcome.Settled? then outcome.minted else [])
  {
    assert batch[..i + 1][..i] == batch[..i];
  }

  /** Claim what is still pending of `ids`, then settle it. */
  function ClaimPass(s: State, ids: seq<Id>, w: World): (State, Outcome) {
    var claimed := Claimable(s.rows, ids);
    var taken := State(Claim(s.rows, ids, w.clock(s.calls)), s.mints, s.calls + 1);
    if claimed == [] then (taken, Settled([])) else SettleClaimed(taken, claimed, w)
  }
}
