/** The hybrid backend under concurrency. Client writes, registrations, single and batch reads and any number of
    synchronisation passes run interleaved, one access to the chain or the store at a time; between accesses they
    hold copies of records. Any local read or write may fail and stamps are arbitrary, so nothing here depends on
    clocks. The mutex of the local backend is left out: it only removes interleavings. Module Settling goes on to
    say when interleaved runs converge. */
module Interleaving {
  import opened Prelude
  import opened Records
  import opened MemoryPersistence
  import opened LocalBackend
  import opened Onchain
  import opened Hybrid
  import opened Convergence

  /** What a call still has to do, with the copies it holds. */
  datatype Task =
    | Confirming(uid: string, req: RegisterRequest, stamp: Instant)    // RegisterAgent, stamped, not yet on chain
    | Mirroring(info: AgentInfo)                                         // confirmed, not yet put locally
    | Reading(uuid: string, op: WriteOp)                                 // write confirmed, local half not begun
    | Writing(uuid: string, op: WriteOp, copy: AgentInfo)                // local copy read, not yet put back
    | Backfilling(info: AgentInfo)                                       // read from chain, not yet put locally
    | Comparing(rest: seq<AgentOnchain>)                                 // pass: listed agents still to visit
    | Fetching(rest: seq<AgentOnchain>)                                  // pass: head lags, fetch it
    | Repairing(rest: seq<AgentOnchain>, info: AgentInfo)                // pass: head fetched, put it

  /** Every level and state that the chain has ever confirmed for an agent. */
  datatype Trace = Trace(levels: set<uint8>, states: set<AgentState>)

  datatype World = World(
    ledger: Ledger, store: Store, index: OwnerIndex, tasks: map<nat, Task>, history: map<string, Trace>)

  const START := World(map[], map[], map[], map[], map[])

  /** One access. `id` names the call; `ok` is false when the access fails. */
  datatype Move =
    | BeginRegister(id: nat, uid: string, req: RegisterRequest, stamp: Instant)
    | ConfirmRegister(id: nat, txHash: string, now: Instant, ok: bool)
    | PutMirror(id: nat, ok: bool)
    | ConfirmWrite(id: nat, uuid: string, op: WriteOp, now: Instant, ok: bool)
    | ReadLocal(id: nat, ok: bool)
    | PutLocal(id: nat, now: Instant, ok: bool)
    | FetchMissing(id: nat, uuid: string)
    | PutBackfill(id: nat, ok: bool)
    | BeginPass(id: nat, listed: seq<AgentOnchain>)
    | CompareHead(id: nat, ok: bool)
    | FetchHead(id: nat, ok: bool)
    | PutHead(id: nat, ok: bool)

  function ExtendTrace(history: map<string, Trace>, a: AgentOnchain): map<string, Trace> {
    var t := if a.uuid in history then history[a.uuid] else Trace({}, {});
    history[a.uuid := Trace(t.levels + {a.level}, t.states + {MapChainState(a.state)})]
  }

  function Spawn(w: World, id: nat, t: Task): World { w.(tasks := w.tasks[id := t]) }

  function Finish(w: World, id: nat): World { w.(tasks := w.tasks - {id}) }

  function PutStore(w: World, r: AgentInfo, ok: bool): World {
    if ok then w.(store := w.store[r.uuid := r], index := IndexPut(w.index, r.owner, r.uuid)) else w
  }

  /** The chain confirms a transaction of agent u. */
  function Accepted(w: World, c: Ledger, u: string): World
    requires u in c
  {
    w.(ledger := c, history := ExtendTrace(w.history, c[u]))
  }

  /** Whether the move's call is at the right place. Listings are copies of what the chain holds at that moment. */
  predicate Enabled(w: World, m: Move) {
    match m
    case BeginRegister(id, uid, req, _) => id !in w.tasks && WellFormed(req)
    case ConfirmRegister(id, _, _, _) => id in w.tasks && w.tasks[id].Confirming?
    case PutMirror(id, _) => id in w.tasks && w.tasks[id].Mirroring?
    case ConfirmWrite(id, _, _, _, _) => id !in w.tasks
    case ReadLocal(id, _) => id in w.tasks && w.tasks[id].Reading?
    case PutLocal(id, _, _) => id in w.tasks && w.tasks[id].Writing?
    case FetchMissing(id, uuid) => id !in w.tasks && ChainGet(w.ledger, uuid).Ok?
    case PutBackfill(id, _) => id in w.tasks && w.tasks[id].Backfilling?
    case BeginPass(id, listed) =>
      id !in w.tasks && forall a :: a in listed ==> a.uuid in w.ledger && w.ledger[a.uuid] == a
    case CompareHead(id, _) => id in w.tasks && w.tasks[id].Comparing? && |w.tasks[id].rest| > 0
    case FetchHead(id, _) => id in w.tasks && w.tasks[id].Fetching? && |w.tasks[id].rest| > 0
    case PutHead(id, _) => id in w.tasks && w.tasks[id].Repairing? && |w.tasks[id].rest| > 0
  }

  function ApplyConfirmRegister(w: World, id: nat, txHash: string, now: Instant, ok: bool): World
    requires Enabled(w, ConfirmRegister(id, txHash, now, ok))
  {
    var t := w.tasks[id];
    var c := ChainRegister(w.ledger, t.uid, t.req, txHash, now);
    if !ok || c.None? then Finish(w, id)
    else Spawn(Accepted(w, c.value, t.uid), id, Mirroring(Mirrored(t.uid, t.req, txHash, t.stamp)))
  }

  function ApplyConfirmWrite(w: World, id: nat, u: string, op: WriteOp, now: Instant, ok: bool): World {
    var c := ChainWrite(w.ledger, u, op, now);
    if !ok || c.None? then w
    else Spawn(Accepted(w, c.value, u), id, Reading(u, op))
  }

  function ApplyPutLocal(w: World, id: nat, now: Instant, ok: bool): World
    requires Enabled(w, PutLocal(id, now, ok))
  {
    var t := w.tasks[id];
    var v := LocalVerdict(t.op, t.copy, now);
    Finish(if v.Applied? then PutStore(w, v.rec, ok) else w, id)
  }

  function ApplyCompareHead(w: World, id: nat, ok: bool): World
    requires Enabled(w, CompareHead(id, ok))
  {
    var rest := w.tasks[id].rest;
    if ok && !Lags(w.store, rest[0]) then Spawn(w, id, Comparing(rest[1..])) else Spawn(w, id, Fetching(rest))
  }

  function ApplyFetchHead(w: World, id: nat, ok: bool): World
    requires Enabled(w, FetchHead(id, ok))
  {
    var rest := w.tasks[id].rest;
    var got := ChainGet(w.ledger, rest[0].uuid);
    if ok && got.Ok? then Spawn(w, id, Repairing(rest, got.value)) else Spawn(w, id, Comparing(rest[1..]))
  }

  function Apply(w: World, m: Move): World
    requires Enabled(w, m)
  {
    match m
    case BeginRegister(id, uid, req, stamp) => Spawn(w, id, Confirming(uid, req, stamp))
    case ConfirmRegister(id, txHash, now, ok) => ApplyConfirmRegister(w, id, txHash, now, ok)
    case PutMirror(id, ok) => Finish(PutStore(w, w.tasks[id].info, ok), id)
    case ConfirmWrite(id, u, op, now, ok) => ApplyConfirmWrite(w, id, u, op, now, ok)
    case ReadLocal(id, ok) =>
      var t := w.tasks[id];
      if ok && t.uuid in w.store then Spawn(w, id, Writing(t.uuid, t.op, w.store[t.uuid])) else Finish(w, id)
    case PutLocal(id, now, ok) => ApplyPutLocal(w, id, now, ok)
    case FetchMissing(id, uuid) => Spawn(w, id, Backfilling(ChainGet(w.ledger, uuid).value))
    case PutBackfill(id, ok) => Finish(PutStore(w, w.tasks[id].info, ok), id)
    case BeginPass(id, listed) => Spawn(w, id, Comparing(listed))
    case CompareHead(id, ok) => ApplyCompareHead(w, id, ok)
    case FetchHead(id, ok) => ApplyFetchHead(w, id, ok)
    case PutHead(id, ok) =>
      Spawn(PutStore(w, w.tasks[id].info, ok), id, Comparing(w.tasks[id].rest[1..]))
  }

  /** The agent that a move changes or adds on the chain, if any. */
  function ConfirmedBy(w: World, m: Move): Option<AgentOnchain>
    requires Enabled(w, m)
  {
    match m
    case ConfirmRegister(id, txHash, now, ok) =>
      var t := w.tasks[id];
      var c := ChainRegister(w.ledger, t.uid, t.req, txHash, now);
      if ok && c.Some? then Some(c.value[t.uid]) else None
    case ConfirmWrite(_, u, op, now, ok) =>
      var c := ChainWrite(w.ledger, u, op, now);
      if ok && c.Some? then Some(c.value[u]) else None
    case _ => None
  }

  /** The record that a move puts, if any. */
  function PutBy(w: World, m: Move): Option<AgentInfo>
    requires Enabled(w, m)
  {
    match m
    case PutMirror(id, ok) => if ok then Some(w.tasks[id].info) else None
    case PutBackfill(id, ok) => if ok then Some(w.tasks[id].info) else None
    case PutHead(id, ok) => if ok then Some(w.tasks[id].info) else None
    case PutLocal(id, now, ok) =>
      var v := LocalVerdict(w.tasks[id].op, w.tasks[id].copy, now);
      if ok && v.Applied? then Some(v.rec) else None
    case _ => None
  }

  /** A move puts or confirms, but not both. */
  lemma OnePartMoves(w: World, m: Move)
    requires Enabled(w, m)
    ensures ConfirmedBy(w, m).None? || PutBy(w, m).None?
  {
  }

  /** A move changes the ledger by what it confirms alone, */
  lemma ConfirmedIsLedger(w: World, m: Move)
    requires (forall u :: u in w.ledger ==> w.ledger[u].uuid == u) && Enabled(w, m)
    ensures var a := ConfirmedBy(w, m);
      Apply(w, m).ledger == if a.Some? then w.ledger[a.value.uuid := a.value] else w.ledger
  {
    hide LocalVerdict;
    if m.ConfirmWrite? && m.ok && ChainWrite(w.ledger, m.uuid, m.op, m.now).Some? {
      TransactLaws(w.ledger[m.uuid], m.op, m.now);
    }
  }

  /** and the store by its put alone. */
  lemma StoreAfter(w: World, m: Move)
    requires Enabled(w, m)
    ensures Apply(w, m).store == if PutBy(w, m).Some? then w.store[PutBy(w, m).value.uuid := PutBy(w, m).value]
                                 else w.store
  {
    hide LocalVerdict, ChainWrite, ChainRegister, ChainGet, IndexPut, ExtendTrace, Lags, Mirrored, View;
  }

  /** A schedule: every move is possible where it happens. */
  ghost predicate Schedule(w: World, moves: seq<Move>)
    decreases |moves|
  {
    |moves| > 0 ==> Enabled(w, moves[0]) && Schedule(Apply(w, moves[0]), moves[1..])
  }

  ghost function After(w: World, moves: seq<Move>): World
    requires Schedule(w, moves)
    decreases |moves|
  {
    if |moves| == 0 then w else After(Apply(w, moves[0]), moves[1..])
  }

  // ---------------------------------------------------------------------
  // The mirror invents nothing
  // ---------------------------------------------------------------------

  /** The trace covers the present, starts from Active, and knows Unregistered only of revoked agents. */
  ghost predicate TraceOk(a: AgentOnchain, t: Trace) {
    && a.level in t.levels && MapChainState(a.state) in t.states && Active in t.states
    && a.state != ChainUnchanged
    && (Unregistered in t.states ==> a.state == ChainRevoked)
  }

  ghost predicate ChainOk(w: World) {
    && LedgerKeys(w.ledger)
    && w.history.Keys == w.ledger.Keys
    && forall u :: u in w.ledger ==> TraceOk(w.ledger[u], w.history[u])
  }

  /** A record, stored or held, carries an agent's true identity and values that the chain once confirmed. */
  ghost predicate Vouched(w: World, r: AgentInfo) {
    && r.uuid in w.ledger && MirrorsIdentity(r, w.ledger[r.uuid])
    && r.uuid in w.history && r.level in w.history[r.uuid].levels && r.state in w.history[r.uuid].states
  }

  /** A pending local write asks for something that the chain has confirmed. */
  ghost predicate OpConfirmed(w: World, u: string, op: WriteOp) {
    && u in w.history
    && match op
       case Upgrade(n, _) => n in w.history[u].levels
       case Ban(_) => Banned in w.history[u].states
       case Unban => Active in w.history[u].states
       case Unregister => Unregistered in w.history[u].states
  }

  ghost predicate TaskOk(w: World, t: Task) {
    match t
    case Mirroring(r) => Vouched(w, r)
    case Backfilling(r) => Vouched(w, r)
    case Repairing(_, r) => Vouched(w, r)
    case Reading(u, op) => OpConfirmed(w, u, op)
    case Writing(u, op, copy) => OpConfirmed(w, u, op) && Vouched(w, copy) && copy.uuid == u
    case _ => true
  }

  ghost predicate StoreOk(w: World) {
    forall u :: u in w.store ==> w.store[u].uuid == u && Vouched(w, w.store[u])
  }

  ghost predicate TasksOk(w: World) {
    forall id :: id in w.tasks ==> TaskOk(w, w.tasks[id])
  }

  ghost predicate Safe(w: World) {
    ChainOk(w) && StoreOk(w) && TasksOk(w) && IndexAgrees(w.store, w.index)
  }

  /** What the chain has confirmed only grows, and identities stay. */
  ghost predicate Grows(w: World, w': World) {
    && w.ledger.Keys <= w'.ledger.Keys && w.history.Keys <= w'.history.Keys
    && (forall u :: u in w.ledger ==> SameIdentity(w.ledger[u], w'.ledger[u]))
    && (forall u :: u in w.history ==>
          w.history[u].levels <= w'.history[u].levels && w.history[u].states <= w'.history[u].states)
  }

  lemma GrowthKeepsTask(w: World, w': World, t: Task)
    requires Grows(w, w') && TaskOk(w, t)
    ensures TaskOk(w', t)
  {
  }

  /** What a transaction may make of an agent: the same identity, revoked for ever, active when new. */
  ghost predicate Confirms(w: World, a: AgentOnchain) {
    && |a.uuid| > 0 && a.state != ChainUnchanged
    && (a.uuid in w.ledger ==>
          SameIdentity(w.ledger[a.uuid], a) && (w.ledger[a.uuid].state == ChainRevoked ==> a.state == ChainRevoked))
    && (a.uuid !in w.ledger ==> a.state == ChainActive)
  }

  lemma ConfirmationKeepsChain(w: World, a: AgentOnchain)
    requires ChainOk(w) && Confirms(w, a)
    ensures ChainOk(Accepted(w, w.ledger[a.uuid := a], a.uuid))
  {
    var w' := Accepted(w, w.ledger[a.uuid := a], a.uuid);
    assert TraceOk(a, w'.history[a.uuid]) by {
      if a.uuid in w.ledger { assert TraceOk(w.ledger[a.uuid], w.history[a.uuid]); }
    }
    forall u | u in w'.ledger ensures TraceOk(w'.ledger[u], w'.history[u]) {
      if u != a.uuid { assert TraceOk(w.ledger[u], w.history[u]); }
    }
  }

  /** A confirmed transaction keeps the chain part and everything that was known before. */
  lemma ConfirmationGrows(w: World, a: AgentOnchain)
    requires ChainOk(w) && Confirms(w, a)
    ensures var w' := Accepted(w, w.ledger[a.uuid := a], a.uuid); ChainOk(w') && Grows(w, w')
  {
    ConfirmationKeepsChain(w, a);
  }

  lemma GrowthKeepsStore(w: World, w': World)
    requires Grows(w, w') && StoreOk(w) && w'.store == w.store
    ensures StoreOk(w')
  {
  }

  lemma GrowthKeepsTasks(w: World, w': World)
    requires Grows(w, w') && TasksOk(w)
    requires forall id :: id in w'.tasks ==> TaskOk(w', w'.tasks[id]) || (id in w.tasks && w'.tasks[id] == w.tasks[id])
    ensures TasksOk(w')
  {
    forall id | id in w'.tasks ensures TaskOk(w', w'.tasks[id]) {
      if id in w.tasks && w'.tasks[id] == w.tasks[id] {
        assert TaskOk(w, w.tasks[id]);
        GrowthKeepsTask(w, w', w.tasks[id]);
      }
    }
  }

  /** Changing the ledger by growth and one task by a good one keeps the world safe. */
  lemma SpawnKeepsSafe(w: World, w': World, id: nat, t: Task)
    requires Safe(w) && ChainOk(w') && Grows(w, w')
    requires w'.store == w.store && w'.index == w.index && w'.tasks == w.tasks[id := t] && TaskOk(w', t)
    ensures Safe(w')
  {
    hide ChainOk, Grows, TaskOk, IndexAgrees;
    GrowthKeepsStore(w, w');
    GrowthKeepsTasks(w, w');
  }

  /** A put under an agent's true owner keeps the owner index a scan of the store. */
  lemma PutKeepsSafe(w: World, r: AgentInfo, ok: bool)
    requires Safe(w) && Vouched(w, r)
    ensures Safe(PutStore(w, r, ok))
  {
    if ok {
      var w' := PutStore(w, r, ok);
      PutKeepsIndexIff(w.store, w.index, r);
      assert r.uuid in w.store ==> Vouched(w, w.store[r.uuid]);
      assert StoreOk(w') by { hide IndexAgrees, TasksOk; }
      assert TasksOk(w') by { hide IndexAgrees, StoreOk; GrowthKeepsTasks(w, w'); }
    }
  }

  lemma FinishKeepsSafe(w: World, id: nat)
    requires Safe(w)
    ensures Safe(Finish(w, id))
  {
    hide IndexAgrees, TaskOk;
    GrowthKeepsStore(w, Finish(w, id));
    GrowthKeepsTasks(w, Finish(w, id));
  }

  lemma ConfirmRegisterKeepsSafe(w: World, id: nat, txHash: string, now: Instant, ok: bool)
    requires Safe(w) && Enabled(w, ConfirmRegister(id, txHash, now, ok))
    ensures Safe(ApplyConfirmRegister(w, id, txHash, now, ok))
  {
    var t := w.tasks[id];
    var c := ChainRegister(w.ledger, t.uid, t.req, txHash, now);
    if !ok || c.None? {
      FinishKeepsSafe(w, id);
    } else {
      var a := c.value[t.uid];
      var w1 := Accepted(w, c.value, t.uid);
      ConfirmationGrows(w, a);
      SpawnKeepsSafe(w, Spawn(w1, id, Mirroring(Mirrored(t.uid, t.req, txHash, t.stamp))), id,
                     Mirroring(Mirrored(t.uid, t.req, txHash, t.stamp)));
    }
  }

  /** An accepted write is confirmed by the version that it leaves on the chain. */
  lemma AcceptedIsConfirmed(a: AgentOnchain, op: WriteOp, now: Instant)
    requires Transact(a, op, now).Some?
    ensures var a' := Transact(a, op, now).value;
      match op
      case Upgrade(n, _) => a'.level == n
      case Ban(_) => a'.state == ChainBanned
      case Unban => a.state == ChainBanned ==> a'.state == ChainActive
      case Unregister => a'.state == ChainRevoked
  {
  }

  lemma AcceptedWriteGrows(w: World, u: string, op: WriteOp, now: Instant)
    requires ChainOk(w) && ChainWrite(w.ledger, u, op, now).Some?
    ensures var w' := Accepted(w, ChainWrite(w.ledger, u, op, now).value, u);
      ChainOk(w') && Grows(w, w') && OpConfirmed(w', u, op)
  {
    var a := ChainWrite(w.ledger, u, op, now).value[u];
    assert TraceOk(w.ledger[u], w.history[u]);
    TransactLaws(w.ledger[u], op, now);
    AcceptedIsConfirmed(w.ledger[u], op, now);
    ConfirmationGrows(w, a);
  }

  lemma ConfirmWriteKeepsSafe(w: World, id: nat, u: string, op: WriteOp, now: Instant, ok: bool)
    requires Safe(w) && Enabled(w, ConfirmWrite(id, u, op, now, ok))
    ensures Safe(ApplyConfirmWrite(w, id, u, op, now, ok))
  {
    var c := ChainWrite(w.ledger, u, op, now);
    if ok && c.Some? {
      AcceptedWriteGrows(w, u, op, now);
      hide ChainOk, Grows, OpConfirmed;
      SpawnKeepsSafe(w, ApplyConfirmWrite(w, id, u, op, now, ok), id, Reading(u, op));
    }
  }

  lemma PutLocalKeepsSafe(w: World, id: nat, now: Instant, ok: bool)
    requires Safe(w) && Enabled(w, PutLocal(id, now, ok))
    ensures Safe(ApplyPutLocal(w, id, now, ok))
  {
    var t := w.tasks[id];
    assert TaskOk(w, t);
    var v := LocalVerdict(t.op, t.copy, now);
    if v.Applied? {
      assert Vouched(w, v.rec);
      PutKeepsSafe(w, v.rec, ok);
      FinishKeepsSafe(PutStore(w, v.rec, ok), id);
    } else {
      FinishKeepsSafe(w, id);
    }
  }

  lemma ViewIsConfirmed(w: World, u: string)
    requires ChainOk(w) && ChainGet(w.ledger, u).Ok?
    ensures Vouched(w, ChainGet(w.ledger, u).value)
  {
    assert TraceOk(w.ledger[u], w.history[u]);
  }

  lemma CompareHeadKeepsSafe(w: World, id: nat, ok: bool)
    requires Safe(w) && Enabled(w, CompareHead(id, ok))
    ensures Safe(ApplyCompareHead(w, id, ok))
  {
    hide Safe;
    var w' := ApplyCompareHead(w, id, ok);
    SpawnsSafely(w, id, w'.tasks[id]);
  }

  lemma FetchHeadKeepsSafe(w: World, id: nat, ok: bool)
    requires Safe(w) && Enabled(w, FetchHead(id, ok))
    ensures Safe(ApplyFetchHead(w, id, ok))
  {
    var rest := w.tasks[id].rest;
    var w' := ApplyFetchHead(w, id, ok);
    if ChainGet(w.ledger, rest[0].uuid).Ok? { ViewIsConfirmed(w, rest[0].uuid); }
    SpawnsSafely(w, id, w'.tasks[id]);
  }

  /** A good new task alone. */
  lemma SpawnsSafely(w: World, id: nat, t: Task)
    requires Safe(w) && TaskOk(w, t)
    ensures Safe(Spawn(w, id, t))
  {
    GrowthKeepsTask(w, Spawn(w, id, t), t);
    hide TaskOk;
    SpawnKeepsSafe(w, Spawn(w, id, t), id, t);
  }

  lemma PutHeadKeepsSafe(w: World, id: nat, ok: bool)
    requires Safe(w) && Enabled(w, PutHead(id, ok))
    ensures Safe(Apply(w, PutHead(id, ok)))
  {
    var t := w.tasks[id];
    assert TaskOk(w, t);
    PutKeepsSafe(w, t.info, ok);
    hide Safe;
    SpawnsSafely(PutStore(w, t.info, ok), id, Comparing(t.rest[1..]));
  }

  /** The last access of a registration or a backfill. */
  lemma PutAndFinishKeepsSafe(w: World, id: nat, r: AgentInfo, ok: bool)
    requires Safe(w) && Vouched(w, r)
    ensures Safe(Finish(PutStore(w, r, ok), id))
  {
    hide Safe;
    PutKeepsSafe(w, r, ok);
    FinishKeepsSafe(PutStore(w, r, ok), id);
  }

  lemma ReadLocalKeepsSafe(w: World, id: nat, ok: bool)
    requires Safe(w) && Enabled(w, ReadLocal(id, ok))
    ensures Safe(Apply(w, ReadLocal(id, ok)))
  {
    var t := w.tasks[id];
    assert TaskOk(w, t);
    if ok && t.uuid in w.store {
      SpawnsSafely(w, id, Writing(t.uuid, t.op, w.store[t.uuid]));
    } else {
      FinishKeepsSafe(w, id);
    }
  }

  lemma FetchMissingKeepsSafe(w: World, id: nat, uuid: string)
    requires Safe(w) && Enabled(w, FetchMissing(id, uuid))
    ensures Safe(Apply(w, FetchMissing(id, uuid)))
  {
    ViewIsConfirmed(w, uuid);
    SpawnsSafely(w, id, Backfilling(ChainGet(w.ledger, uuid).value));
  }

  lemma HeldIsVouched(w: World, id: nat)
    requires Safe(w) && id in w.tasks && (w.tasks[id].Mirroring? || w.tasks[id].Backfilling?)
    ensures Vouched(w, w.tasks[id].info)
  {
    assert TaskOk(w, w.tasks[id]);
  }

  /** Every access of every call keeps the world safe. */
  lemma MoveKeepsSafe(w: World, m: Move)
    requires Safe(w) && Enabled(w, m)
    ensures Safe(Apply(w, m))
  {
    hide Safe;
    match m
    case BeginRegister(id, uid, req, stamp) => SpawnsSafely(w, id, Confirming(uid, req, stamp));
    case ConfirmRegister(id, txHash, now, ok) => ConfirmRegisterKeepsSafe(w, id, txHash, now, ok);
    case PutMirror(id, ok) => HeldIsVouched(w, id); PutAndFinishKeepsSafe(w, id, w.tasks[id].info, ok);
    case ConfirmWrite(id, u, op, now, ok) => ConfirmWriteKeepsSafe(w, id, u, op, now, ok);
    case ReadLocal(id, ok) => ReadLocalKeepsSafe(w, id, ok);
    case PutLocal(id, now, ok) => PutLocalKeepsSafe(w, id, now, ok);
    case FetchMissing(id, uuid) => FetchMissingKeepsSafe(w, id, uuid);
    case PutBackfill(id, ok) => HeldIsVouched(w, id); PutAndFinishKeepsSafe(w, id, w.tasks[id].info, ok);
    case BeginPass(id, listed) => SpawnsSafely(w, id, Comparing(listed));
    case CompareHead(id, ok) => CompareHeadKeepsSafe(w, id, ok);
    case FetchHead(id, ok) => FetchHeadKeepsSafe(w, id, ok);
    case PutHead(id, ok) => PutHeadKeepsSafe(w, id, ok);
  }

  lemma {:induction false} ScheduleKeepsSafe(w: World, moves: seq<Move>)
    requires Safe(w) && Schedule(w, moves)
    ensures Safe(After(w, moves))
    decreases |moves|
  {
    if |moves| > 0 {
      MoveKeepsSafe(w, moves[0]);
      ScheduleKeepsSafe(Apply(w, moves[0]), moves[1..]);
    }
  }

  /** At some moment of the schedule the chain shows agent u at level n, */
  ghost predicate ShowedLevel(w: World, moves: seq<Move>, u: string, n: uint8)
    requires Schedule(w, moves)
    decreases |moves|
  {
    || (u in w.ledger && w.ledger[u].level == n)
    || (|moves| > 0 && ShowedLevel(Apply(w, moves[0]), moves[1..], u, n))
  }

  /** and in state st. */
  ghost predicate ShowedState(w: World, moves: seq<Move>, u: string, st: AgentState)
    requires Schedule(w, moves)
    decreases |moves|
  {
    || (u in w.ledger && MapChainState(w.ledger[u].state) == st)
    || (|moves| > 0 && ShowedState(Apply(w, moves[0]), moves[1..], u, st))
  }

  ghost predicate Traced(w: World, u: string, n: uint8, st: AgentState, level: bool) {
    u in w.history && if level then n in w.history[u].levels else st in w.history[u].states
  }

  lemma ConfirmedIsHistory(w: World, m: Move)
    requires (forall u :: u in w.ledger ==> w.ledger[u].uuid == u) && Enabled(w, m)
    ensures var a := ConfirmedBy(w, m);
      Apply(w, m).history == if a.Some? then ExtendTrace(w.history, a.value) else w.history
  {
    hide LocalVerdict, IndexPut, ExtendTrace, Lags, View, Mirrored;
  }

  lemma MoveTraces(w: World, m: Move, u: string, n: uint8, st: AgentState, level: bool)
    requires Safe(w) && Enabled(w, m)
    ensures Traced(Apply(w, m), u, n, st, level) <==>
      || Traced(w, u, n, st, level)
      || (&& u in Apply(w, m).ledger
          && if level then Apply(w, m).ledger[u].level == n else MapChainState(Apply(w, m).ledger[u].state) == st)
  {
    assert u in w.ledger ==> TraceOk(w.ledger[u], w.history[u]);
    ConfirmedIsLedger(w, m);
    ConfirmedIsHistory(w, m);
    hide Safe, Apply, ConfirmedBy, MapChainState;
  }

  /** The history is what the chain has shown, no more and no less. */
  lemma {:induction false} HistoryIsWhatWasShown(w: World, moves: seq<Move>, u: string, n: uint8, st: AgentState)
    requires Safe(w) && Schedule(w, moves)
    ensures Traced(After(w, moves), u, n, st, true) <==> Traced(w, u, n, st, true) || ShowedLevel(w, moves, u, n)
    ensures Traced(After(w, moves), u, n, st, false) <==> Traced(w, u, n, st, false) || ShowedState(w, moves, u, st)
    decreases |moves|
  {
    assert u in w.ledger ==> TraceOk(w.ledger[u], w.history[u]);
    hide Safe, Enabled, Apply;
    if |moves| > 0 {
      MoveTraces(w, moves[0], u, n, st, true);
      MoveTraces(w, moves[0], u, n, st, false);
      MoveKeepsSafe(w, moves[0]);
      HistoryIsWhatWasShown(Apply(w, moves[0]), moves[1..], u, n, st);
    }
  }

  /** In every interleaving, whatever fails: the mirror holds only agents that are on the chain, with the chain's
      owner, permission, key and hash, at a level that the chain showed at some moment of the schedule and in a state
      that it showed; and an agent that is unregistered locally is revoked on the chain. */
  lemma MirrorInventsNothing(moves: seq<Move>, u: string)
    requires Schedule(START, moves) && u in After(START, moves).store
    ensures var w := After(START, moves);
      && u in w.ledger && MirrorsIdentity(w.store[u], w.ledger[u])
      && ShowedLevel(START, moves, u, w.store[u].level) && ShowedState(START, moves, u, w.store[u].state)
      && (w.store[u].state == Unregistered ==> w.ledger[u].state == ChainRevoked)
  {
    ScheduleKeepsSafe(START, moves);
    var w := After(START, moves);
    HistoryIsWhatWasShown(START, moves, u, w.store[u].level, w.store[u].state);
    assert TraceOk(w.ledger[u], w.history[u]);
  }

  /** In every interleaving, whatever fails: the owner index lists exactly the agents that a scan of the store finds
      under an owner, which is the owner that the chain has. */
  lemma IndexIsAScan(moves: seq<Move>, owner: string)
    requires Schedule(START, moves)
    ensures var w := After(START, moves);
      && IndexAgrees(w.store, w.index)
      && Indexed(w.index, owner) == OwnedBy(w.store, owner)
      && forall u :: u in Indexed(w.index, owner) <==> u in w.store && u in w.ledger && w.ledger[u].owner == owner
  {
    ScheduleKeepsSafe(START, moves);
    var w := After(START, moves);
    forall u ensures u in Indexed(w.index, owner) <==> u in w.store && u in w.ledger && w.ledger[u].owner == owner {
      assert u in w.store ==> Vouched(w, w.store[u]);
    }
  }

  // ---------------------------------------------------------------------
  // Never a higher level than the chain, unless the chain undercuts it
  // ---------------------------------------------------------------------

  /** The chain has the agent at this level or a higher one. */
  ghost predicate LevelReached(c: Ledger, u: string, n: uint8) {
    u in c && n <= c[u].level
  }

  /** The same of the record that a call holds and of the level that it still has to write. */
  ghost predicate TaskBounded(c: Ledger, t: Task) {
    match t
    case Mirroring(r) => LevelReached(c, r.uuid, r.level)
    case Backfilling(r) => LevelReached(c, r.uuid, r.level)
    case Repairing(_, r) => LevelReached(c, r.uuid, r.level)
    case Reading(u, op) => op.Upgrade? ==> LevelReached(c, u, op.newLevel)
    case Writing(u, op, copy) =>
      LevelReached(c, u, copy.level) && (op.Upgrade? ==> LevelReached(c, u, op.newLevel))
    case _ => true
  }

  /** No stored or held record and no pending upgrade is ahead of the chain. */
  ghost predicate Bounded(w: World) {
    && (forall u :: u in w.store ==> LevelReached(w.ledger, u, w.store[u].level))
    && (forall id :: id in w.tasks ==> TaskBounded(w.ledger, w.tasks[id]))
  }

  /** The call holds a record of agent u, or still has to write a level of it, above n. */
  predicate Above(t: Task, u: string, n: uint8) {
    match t
    case Mirroring(r) => r.uuid == u && r.level > n
    case Backfilling(r) => r.uuid == u && r.level > n
    case Repairing(_, r) => r.uuid == u && r.level > n
    case Reading(v, op) => v == u && op.Upgrade? && op.newLevel > n
    case Writing(v, op, copy) => v == u && (copy.level > n || (op.Upgrade? && op.newLevel > n))
    case _ => false
  }

  predicate AcceptedUpgrade(w: World, m: Move) {
    m.ConfirmWrite? && m.ok && m.op.Upgrade? && ChainWrite(w.ledger, m.uuid, m.op, m.now).Some?
  }

  /** An accepted level update below a level that the store, a held copy or a pending upgrade has for the agent. */
  predicate Undercuts(w: World, m: Move) {
    && AcceptedUpgrade(w, m)
    && (|| (m.uuid in w.store && w.store[m.uuid].level > m.op.newLevel)
        || exists id :: id in w.tasks && Above(w.tasks[id], m.uuid, m.op.newLevel))
  }

  ghost predicate LevelsKept(c: Ledger, c': Ledger) {
    forall u :: u in c ==> u in c' && c[u].level <= c'[u].level
  }

  lemma SpawnKeepsBounds(w: World, w': World, id: nat, t: Task)
    requires Bounded(w) && LevelsKept(w.ledger, w'.ledger)
    requires w'.store == w.store && w'.tasks == w.tasks[id := t] && TaskBounded(w'.ledger, t)
    ensures Bounded(w')
  {
    forall i | i in w'.tasks ensures TaskBounded(w'.ledger, w'.tasks[i]) {
      if i != id { assert TaskBounded(w.ledger, w.tasks[i]); }
    }
  }

  lemma PutKeepsBounds(w: World, r: AgentInfo, ok: bool)
    requires Bounded(w) && LevelReached(w.ledger, r.uuid, r.level)
    ensures Bounded(PutStore(w, r, ok))
  {
  }

  lemma FinishKeepsBounds(w: World, id: nat)
    requires Bounded(w)
    ensures Bounded(Finish(w, id))
  {
  }

  lemma VerdictWithinLevels(c: Ledger, op: WriteOp, copy: AgentInfo, now: Instant)
    requires LocalVerdict(op, copy, now).Applied? && LevelReached(c, copy.uuid, copy.level)
    requires op.Upgrade? ==> LevelReached(c, copy.uuid, op.newLevel)
    ensures var r := LocalVerdict(op, copy, now).rec; r.uuid == copy.uuid && LevelReached(c, r.uuid, r.level)
  {
    hide LevelText, StateText;
  }

  lemma PutLocalKeepsBounds(w: World, id: nat, now: Instant, ok: bool)
    requires Safe(w) && Bounded(w) && Enabled(w, PutLocal(id, now, ok))
    ensures Bounded(ApplyPutLocal(w, id, now, ok))
  {
    var t := w.tasks[id];
    assert TaskOk(w, t) && TaskBounded(w.ledger, t);
    var v := LocalVerdict(t.op, t.copy, now);
    hide Safe;
    if v.Applied? {
      VerdictWithinLevels(w.ledger, t.op, t.copy, now);
      PutKeepsBounds(w, v.rec, ok);
      FinishKeepsBounds(PutStore(w, v.rec, ok), id);
    } else {
      FinishKeepsBounds(w, id);
    }
  }

  lemma ConfirmRegisterKeepsBounds(w: World, id: nat, txHash: string, now: Instant, ok: bool)
    requires Bounded(w) && Enabled(w, ConfirmRegister(id, txHash, now, ok))
    ensures Bounded(ApplyConfirmRegister(w, id, txHash, now, ok))
  {
    var t := w.tasks[id];
    if !ok || ChainRegister(w.ledger, t.uid, t.req, txHash, now).None? {
      FinishKeepsBounds(w, id);
    } else {
      SpawnKeepsBounds(w, ApplyConfirmRegister(w, id, txHash, now, ok), id,
                       Mirroring(Mirrored(t.uid, t.req, txHash, t.stamp)));
    }
  }

  lemma PutAndFinishKeepsBounds(w: World, id: nat, r: AgentInfo, ok: bool)
    requires Bounded(w) && LevelReached(w.ledger, r.uuid, r.level)
    ensures Bounded(Finish(PutStore(w, r, ok), id))
  {
    hide Bounded;
    PutKeepsBounds(w, r, ok);
    FinishKeepsBounds(PutStore(w, r, ok), id);
  }

  lemma ReadLocalKeepsBounds(w: World, id: nat, ok: bool)
    requires StoreOk(w) && Bounded(w) && Enabled(w, ReadLocal(id, ok))
    ensures Bounded(Apply(w, ReadLocal(id, ok)))
  {
    var t := w.tasks[id];
    assert TaskBounded(w.ledger, t);
    if ok && t.uuid in w.store {
      SpawnKeepsBounds(w, Apply(w, ReadLocal(id, ok)), id, Writing(t.uuid, t.op, w.store[t.uuid]));
    } else {
      FinishKeepsBounds(w, id);
    }
  }

  lemma PassKeepsBounds(w: World, m: Move)
    requires ChainOk(w) && Bounded(w) && Enabled(w, m) && (m.CompareHead? || m.FetchHead? || m.PutHead?)
    ensures Bounded(Apply(w, m))
  {
    var t := w.tasks[m.id];
    assert TaskBounded(w.ledger, t);
    if m.PutHead? {
      PutKeepsBounds(w, t.info, m.ok);
      SpawnKeepsBounds(PutStore(w, t.info, m.ok), Apply(w, m), m.id, Comparing(t.rest[1..]));
    } else {
      SpawnKeepsBounds(w, Apply(w, m), m.id, Apply(w, m).tasks[m.id]);
    }
  }

  /** Registrations, reads and puts keep the bounds. */
  lemma OtherMovesKeepBounds(w: World, m: Move)
    requires Safe(w) && Bounded(w) && Enabled(w, m) && !m.ConfirmWrite?
    ensures Bounded(Apply(w, m))
  {
    if m.id in w.tasks { assert TaskBounded(w.ledger, w.tasks[m.id]); }
    match m
    case BeginRegister(id, uid, req, stamp) => SpawnKeepsBounds(w, Apply(w, m), id, Confirming(uid, req, stamp));
    case ConfirmRegister(id, txHash, now, ok) => ConfirmRegisterKeepsBounds(w, id, txHash, now, ok);
    case PutMirror(id, ok) => PutAndFinishKeepsBounds(w, id, w.tasks[id].info, ok);
    case ReadLocal(id, ok) => ReadLocalKeepsBounds(w, id, ok);
    case PutLocal(id, now, ok) => PutLocalKeepsBounds(w, id, now, ok);
    case FetchMissing(id, uuid) =>
      SpawnKeepsBounds(w, Apply(w, m), id, Backfilling(ChainGet(w.ledger, uuid).value));
    case PutBackfill(id, ok) => PutAndFinishKeepsBounds(w, id, w.tasks[id].info, ok);
    case BeginPass(id, listed) => SpawnKeepsBounds(w, Apply(w, m), id, Comparing(listed));
    case _ => PassKeepsBounds(w, m);
  }

  /** When agent u is set to level n, a call stays bounded if and only if it is not above n. */
  lemma TaskBoundedIff(c: Ledger, u: string, a: AgentOnchain, t: Task)
    requires TaskBounded(c, t)
    ensures TaskBounded(c[u := a], t) <==> !Above(t, u, a.level)
  {
  }

  lemma AcceptedUpgradeBounds(w: World, m: Move)
    requires Bounded(w) && Enabled(w, m) && AcceptedUpgrade(w, m)
    ensures Bounded(Apply(w, m)) <==> !Undercuts(w, m)
  {
    var w', u, n := Apply(w, m), m.uuid, m.op.newLevel;
    var a := w'.ledger[u];
    assert w'.ledger == w.ledger[u := a] && a.level == n;
    hide TaskBounded, Above;
    forall id | id in w.tasks ensures TaskBounded(w'.ledger, w.tasks[id]) <==> !Above(w.tasks[id], u, n) {
      TaskBoundedIff(w.ledger, u, a, w.tasks[id]);
    }
    assert TaskBounded(w'.ledger, Reading(u, m.op)) by { NewUpgradeIsBounded(w'.ledger, u, m.op); }
    assert forall id :: id in w'.tasks <==> id in w.tasks || id == m.id;
    assert forall id :: id in w.tasks ==> w'.tasks[id] == w.tasks[id];
  }

  lemma NewUpgradeIsBounded(c: Ledger, u: string, op: WriteOp)
    requires op.Upgrade? ==> LevelReached(c, u, op.newLevel)
    ensures TaskBounded(c, Reading(u, op))
  {
  }

  /** An access leaves the store, the held copies and the pending upgrades within the chain's levels if and only if
      it does not undercut one of them. */
  lemma BoundedIffNoUndercut(w: World, m: Move)
    requires Safe(w) && Bounded(w) && Enabled(w, m)
    ensures Bounded(Apply(w, m)) <==> !Undercuts(w, m)
  {
    if AcceptedUpgrade(w, m) {
      AcceptedUpgradeBounds(w, m);
    } else if m.ConfirmWrite? {
      if m.ok && ChainWrite(w.ledger, m.uuid, m.op, m.now).Some? {
        SpawnKeepsBounds(w, Apply(w, m), m.id, Reading(m.uuid, m.op));
      }
    } else {
      OtherMovesKeepBounds(w, m);
    }
  }

  ghost predicate NeverUndercuts(w: World, moves: seq<Move>)
    requires Schedule(w, moves)
    decreases |moves|
  {
    |moves| > 0 ==> !Undercuts(w, moves[0]) && NeverUndercuts(Apply(w, moves[0]), moves[1..])
  }

  lemma {:induction false} ScheduleKeepsBounds(w: World, moves: seq<Move>)
    requires Safe(w) && Bounded(w) && Schedule(w, moves) && NeverUndercuts(w, moves)
    ensures Bounded(After(w, moves))
    decreases |moves|
  {
    if |moves| > 0 {
      MoveKeepsSafe(w, moves[0]);
      BoundedIffNoUndercut(w, moves[0]);
      ScheduleKeepsBounds(Apply(w, moves[0]), moves[1..]);
    }
  }

  /** In every interleaving in which no accepted update undercuts the mirror or a pending call, the mirror is never
      ahead of the chain in level. */
  lemma MirrorNeverAhead(moves: seq<Move>, u: string)
    requires Schedule(START, moves) && NeverUndercuts(START, moves) && u in After(START, moves).store
    ensures u in After(START, moves).ledger
    ensures After(START, moves).store[u].level <= After(START, moves).ledger[u].level
  {
    ScheduleKeepsBounds(START, moves);
  }

  // The mirror itself, without what is on its way to it.

  predicate Ahead(w: World, u: string) {
    u in w.store && u in w.ledger && w.store[u].level > w.ledger[u].level
  }

  /** A record of u is put above the chain's level, or the chain accepts a level below the mirror's. */
  predicate GoesAhead(w: World, m: Move, u: string)
    requires Enabled(w, m)
  {
    var r := PutBy(w, m);
    || (r.Some? && r.value.uuid == u && u in w.ledger && r.value.level > w.ledger[u].level)
    || (AcceptedUpgrade(w, m) && m.uuid == u && u in w.store && w.store[u].level > m.op.newLevel)
  }

  /** The mirror's or the chain's level of u is set. */
  predicate SetsLevel(w: World, m: Move, u: string)
    requires Enabled(w, m)
  {
    (PutBy(w, m).Some? && PutBy(w, m).value.uuid == u) || (AcceptedUpgrade(w, m) && m.uuid == u)
  }

  /** What a move makes of an agent's level on the chain. */
  lemma LevelConfirmed(w: World, m: Move, u: string)
    requires Safe(w) && Enabled(w, m)
    ensures var c := Apply(w, m).ledger;
      u in w.ledger ==>
        u in c && c[u].level == if AcceptedUpgrade(w, m) && m.uuid == u then m.op.newLevel else w.ledger[u].level
    ensures AcceptedUpgrade(w, m) ==> m.uuid in w.ledger
  {
    ConfirmedIsLedger(w, m);
    hide LocalVerdict, Safe;
  }

  /** One access, whatever the mirror was before: afterwards it is ahead on an agent if and only if the access puts it
      ahead, or found it so and does not set the agent's level. */
  lemma AheadIff(w: World, m: Move, u: string)
    requires Safe(w) && Enabled(w, m)
    ensures Ahead(Apply(w, m), u) <==> GoesAhead(w, m, u) || (Ahead(w, u) && !SetsLevel(w, m, u))
  {
    hide Apply, Enabled, PutBy, ConfirmedBy, Safe;
    StoreAfter(w, m);
    LevelConfirmed(w, m, u);
    OnePartMoves(w, m);
    UpgradeConfirms(w, m);
    PutIsOnChain(w, m);
    LedgerKept(w, m, u);
  }

  /** Only a new agent, which has no mirror, joins the ledger. */
  lemma LedgerKept(w: World, m: Move, u: string)
    requires Safe(w) && Enabled(w, m)
    ensures u in w.ledger ==> u in Apply(w, m).ledger
    ensures u !in w.ledger ==> u !in w.store
  {
    ConfirmedIsLedger(w, m);
    hide Apply, Enabled, ConfirmedBy;
    if u in w.store { assert Vouched(w, w.store[u]); }
  }

  lemma UpgradeConfirms(w: World, m: Move)
    requires Enabled(w, m)
    ensures AcceptedUpgrade(w, m) ==> ConfirmedBy(w, m).Some?
  {
  }

  lemma PutIsOnChain(w: World, m: Move)
    requires Safe(w) && Enabled(w, m)
    ensures PutBy(w, m).Some? ==> PutBy(w, m).value.uuid in w.ledger
  {
    hide LevelText, StateText;
    if m.id in w.tasks { assert TaskOk(w, w.tasks[m.id]); }
  }

  ghost predicate EverSetsLevel(w: World, moves: seq<Move>, u: string)
    requires Schedule(w, moves)
    decreases |moves|
  {
    |moves| > 0 && (SetsLevel(w, moves[0], u) || EverSetsLevel(Apply(w, moves[0]), moves[1..], u))
  }

  /** Some access puts the mirror ahead on the agent, and no later one sets its level. */
  ghost predicate StaysAhead(w: World, moves: seq<Move>, u: string)
    requires Schedule(w, moves)
    decreases |moves|
  {
    |moves| > 0 &&
    (|| (GoesAhead(w, moves[0], u) && !EverSetsLevel(Apply(w, moves[0]), moves[1..], u))
     || StaysAhead(Apply(w, moves[0]), moves[1..], u))
  }

  lemma GoingAheadSetsLevel(w: World, m: Move, u: string)
    requires Enabled(w, m) && GoesAhead(w, m, u)
    ensures SetsLevel(w, m, u)
  {
  }

  lemma {:induction false} ScheduleAheadIff(w: World, moves: seq<Move>, u: string)
    requires Safe(w) && Schedule(w, moves)
    ensures Ahead(After(w, moves), u) <==>
              StaysAhead(w, moves, u) || (Ahead(w, u) && !EverSetsLevel(w, moves, u))
    decreases |moves|
  {
    hide Safe, Enabled, Apply, GoesAhead, SetsLevel, Ahead;
    if |moves| > 0 {
      var m := moves[0];
      MoveKeepsSafe(w, m);
      AheadIff(w, m, u);
      if GoesAhead(w, m, u) { GoingAheadSetsLevel(w, m, u); }
      ScheduleAheadIff(Apply(w, m), moves[1..], u);
    }
  }

  /** In every interleaving: the mirror ends ahead of the chain on an agent if and only if some access put it ahead and
      nothing later set the agent's level, here or there. */
  lemma MirrorAheadIff(moves: seq<Move>, u: string)
    requires Schedule(START, moves)
    ensures Ahead(After(START, moves), u) <==> StaysAhead(START, moves, u)
  {
    ScheduleAheadIff(START, moves, u);
  }

  /** An accepted level update below the chain's present level. */
  predicate Downgrade(w: World, m: Move) {
    AcceptedUpgrade(w, m) && m.op.newLevel < w.ledger[m.uuid].level
  }

  ghost predicate NeverDowngrades(w: World, moves: seq<Move>)
    requires Schedule(w, moves)
    decreases |moves|
  {
    |moves| > 0 ==> !Downgrade(w, moves[0]) && NeverDowngrades(Apply(w, moves[0]), moves[1..])
  }

  /** As long as nothing is ahead of the chain, what undercuts is a downgrade: */
  lemma UndercutIsDowngrade(w: World, m: Move)
    requires Bounded(w) && Undercuts(w, m)
    ensures Downgrade(w, m)
  {
    if !(m.uuid in w.store && w.store[m.uuid].level > m.op.newLevel) {
      var id :| id in w.tasks && Above(w.tasks[id], m.uuid, m.op.newLevel);
      assert TaskBounded(w.ledger, w.tasks[id]);
    }
  }

  /** a run without downgrades undercuts nothing. The converse fails, see HarmlessDowngrade. */
  lemma {:induction false} NoDowngradeNoUndercut(w: World, moves: seq<Move>)
    requires Safe(w) && Bounded(w) && Schedule(w, moves) && NeverDowngrades(w, moves)
    ensures NeverUndercuts(w, moves)
    decreases |moves|
  {
    if |moves| > 0 {
      if Undercuts(w, moves[0]) { UndercutIsDowngrade(w, moves[0]); }
      MoveKeepsSafe(w, moves[0]);
      BoundedIffNoUndercut(w, moves[0]);
      NoDowngradeNoUndercut(Apply(w, moves[0]), moves[1..]);
    }
  }

  // ---------------------------------------------------------------------
  // Two downgrades
  // ---------------------------------------------------------------------

  const LEVEL_5 := RegisterRequest("alice", 5, 0, "pk")
  const AT_LEVEL_5 := Confirmed("u", LEVEL_5, "tx", 2)

  /** Registered at level 5, with or without the local mirror, then set to level 2. */
  function DowngradeMoves(mirrored: bool): seq<Move> {
    [BeginRegister(0, "u", LEVEL_5, 1), ConfirmRegister(0, "tx", 2, true), PutMirror(0, mirrored),
     ConfirmWrite(1, "u", Upgrade(2, ""), 3, true)]
  }

  /** The world before the update. */
  lemma BeforeDowngrade(mirrored: bool) returns (w1: World, w2: World, w3: World)
    ensures var m := DowngradeMoves(mirrored);
      && Enabled(START, m[0]) && w1 == Apply(START, m[0])
      && Enabled(w1, m[1]) && w2 == Apply(w1, m[1])
      && Enabled(w2, m[2]) && w3 == Apply(w2, m[2])
    ensures w3.tasks == map[] && w3.ledger == map["u" := AT_LEVEL_5]
    ensures w3.store == if mirrored then map["u" := Mirrored("u", LEVEL_5, "tx", 1)] else map[]
  {
    var m := DowngradeMoves(mirrored);
    w1 := Apply(START, m[0]);
    assert w1.tasks == map[0 := Confirming("u", LEVEL_5, 1)] && w1.ledger == map[] && w1.store == map[];
    w2 := Apply(w1, m[1]);
    assert w2.tasks == map[0 := Mirroring(Mirrored("u", LEVEL_5, "tx", 1))] && w2.store == map[];
    assert w2.ledger == map["u" := AT_LEVEL_5];
    w3 := Apply(w2, m[2]);
    assert w3.tasks == map[];
  }

  lemma FourMoves(w: World, m: seq<Move>, w1: World, w2: World, w3: World, w4: World)
    requires |m| == 4 && Enabled(w, m[0]) && Apply(w, m[0]) == w1 && Enabled(w1, m[1]) && Apply(w1, m[1]) == w2
    requires Enabled(w2, m[2]) && Apply(w2, m[2]) == w3 && Enabled(w3, m[3]) && Apply(w3, m[3]) == w4
    ensures Schedule(w, m) && After(w, m) == w4
    ensures NeverUndercuts(w, m) <==>
              !Undercuts(w, m[0]) && !Undercuts(w1, m[1]) && !Undercuts(w2, m[2]) && !Undercuts(w3, m[3])
    ensures Downgrade(w3, m[3]) ==> !NeverDowngrades(w, m)
  {
    hide Enabled, Apply, Undercuts, Downgrade;
    var m1, m2, m3, m4 := m[1..], m[1..][1..], m[1..][1..][1..], m[1..][1..][1..][1..];
    assert m1[0] == m[1] && m2[0] == m[2] && m3[0] == m[3] && m4 == [];
    assert Schedule(w4, m4) && After(w4, m4) == w4 && NeverUndercuts(w4, m4);
    assert Schedule(w3, m3) && After(w3, m3) == w4 && (NeverUndercuts(w3, m3) <==> !Undercuts(w3, m[3]));
    assert Schedule(w2, m2) && After(w2, m2) == w4;
    assert NeverUndercuts(w2, m2) <==> !Undercuts(w2, m[2]) && !Undercuts(w3, m[3]);
    assert Schedule(w1, m1) && After(w1, m1) == w4;
    assert NeverUndercuts(w1, m1) <==> !Undercuts(w1, m[1]) && !Undercuts(w2, m[2]) && !Undercuts(w3, m[3]);
    if Downgrade(w3, m[3]) {
      assert !NeverDowngrades(w3, m3);
      assert !NeverDowngrades(w2, m2);
      assert !NeverDowngrades(w1, m1);
    }
  }

  /** The adapter accepts a lower level; the mirror is then ahead. */
  lemma DowngradePutsMirrorAhead()
    ensures Schedule(START, DowngradeMoves(true))
    ensures var w := After(START, DowngradeMoves(true));
      "u" in w.store && "u" in w.ledger && w.store["u"].level == 5 && w.ledger["u"].level == 2
  {
    hide Schedule, After, NeverUndercuts, NeverDowngrades;
    var w1, w2, w3 := BeforeDowngrade(true);
    FourMoves(START, DowngradeMoves(true), w1, w2, w3, Apply(w3, DowngradeMoves(true)[3]));
  }

  /** The same downgrade when the mirroring failed: it undercuts nothing, and there is no mirror to be ahead. */
  lemma HarmlessDowngrade()
    ensures Schedule(START, DowngradeMoves(false))
    ensures !NeverDowngrades(START, DowngradeMoves(false)) && NeverUndercuts(START, DowngradeMoves(false))
    ensures After(START, DowngradeMoves(false)).store == map[]
  {
    hide Schedule, After, NeverUndercuts, NeverDowngrades;
    var m := DowngradeMoves(false);
    var w1, w2, w3 := BeforeDowngrade(false);
    FourMoves(START, m, w1, w2, w3, Apply(w3, m[3]));
    assert !Undercuts(w3, m[3]);
    assert Downgrade(w3, m[3]);
  }
}
