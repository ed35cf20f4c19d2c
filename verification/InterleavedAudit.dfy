/** The audit log of the off-chain backend under concurrency (core/backend/local.go). The four writes hold the mutex
    over their read, put and append; a registration puts and appends without it. Calls run interleaved, one access at
    a time, and any put may fail. Appends may then come out of order: a write of a new agent can be logged before its
    registration is. Stamps do not: sorted by time the log still tells the agent's story. */
module InterleavedAudit {
  import opened Prelude
  import opened Records
  import opened MemoryPersistence
  import opened LocalBackend
  import opened AuditTrail

  /** What a call still has to do. */
  datatype Task =
    | Registering(uid: string, req: RegisterRequest, now: Instant)   // stamped, not yet put
    | LoggingRegister(entry: ChangeLog)                              // put, not yet logged
    | Reading(uuid: string, op: WriteOp)                             // holds the mutex
    | Updating(uuid: string, op: WriteOp, copy: AgentInfo)           // holds the mutex and a copy
    | LoggingWrite(entry: ChangeLog)                                 // put, not yet logged, holds the mutex

  /** `births` are the registrations that put the agents, `inProgress` those that have begun and not ended, by UUID. */
  datatype World = World(
    state: LocalState, tasks: map<nat, Task>, mutex: Option<nat>, clock: Instant,
    births: Births, inProgress: map<string, nat>)

  function Begin(clock: Instant): World { World(EMPTY, map[], None, clock, map[], map[]) }

  /** One access. `id` names the call; `ok` is false when the put fails. */
  datatype Move =
    | BeginRegister(id: nat, uid: string, req: RegisterRequest, now: Instant)
    | PutRegister(id: nat, ok: bool)
    | LogRegister(id: nat)
    | Lock(id: nat, uuid: string, op: WriteOp)
    | ReadAgent(id: nat)
    | PutWrite(id: nat, now: Instant, ok: bool)
    | LogWrite(id: nat)

  /** A generated UUID is new, and the clock never shows an instant twice. */
  predicate Enabled(w: World, m: Move) {
    match m
    case BeginRegister(id, uid, req, now) =>
      && id !in w.tasks && WellFormed(req) && w.clock < now
      && uid != "" && uid !in w.state.store && uid !in w.inProgress
    case PutRegister(id, _) => id in w.tasks && w.tasks[id].Registering?
    case LogRegister(id) => id in w.tasks && w.tasks[id].LoggingRegister?
    case Lock(id, _, _) => id !in w.tasks && w.mutex == None
    case ReadAgent(id) => id in w.tasks && w.tasks[id].Reading?
    case PutWrite(id, now, _) => id in w.tasks && w.tasks[id].Updating? && w.clock < now
    case LogWrite(id) => id in w.tasks && w.tasks[id].LoggingWrite?
  }

  function PutIn(s: LocalState, r: AgentInfo): LocalState {
    s.(store := s.store[r.uuid := r], index := IndexPut(s.index, r.owner, r.uuid))
  }

  function LogIn(s: LocalState, e: ChangeLog): LocalState { s.(logs := LogsAppend(s.logs, e)) }

  function Unlock(w: World, id: nat): World { w.(tasks := w.tasks - {id}, mutex := None) }

  function ApplyPutRegister(w: World, id: nat, ok: bool): World
    requires Enabled(w, PutRegister(id, ok))
  {
    var t := w.tasks[id];
    if ok then
      w.(state := PutIn(w.state, Registration(t.uid, t.req, t.now)),
         tasks := w.tasks[id := LoggingRegister(RegisterEntry(t.uid, t.req, t.now))],
         births := w.births[t.uid := Birth(t.req, t.now)])
    else w.(tasks := w.tasks - {id}, inProgress := w.inProgress - {t.uid})
  }

  function ApplyLogRegister(w: World, id: nat): World
    requires Enabled(w, LogRegister(id))
  {
    var e := w.tasks[id].entry;
    w.(state := LogIn(w.state, e), tasks := w.tasks - {id}, inProgress := w.inProgress - {e.uuid})
  }

  function ApplyReadAgent(w: World, id: nat): World
    requires Enabled(w, ReadAgent(id))
  {
    var t := w.tasks[id];
    if t.uuid in w.state.store
    then w.(tasks := w.tasks[id := Updating(t.uuid, t.op, w.state.store[t.uuid])])
    else Unlock(w, id)
  }

  function ApplyPutWrite(w: World, id: nat, now: Instant, ok: bool): World
    requires Enabled(w, PutWrite(id, now, ok))
  {
    var v := LocalVerdict(w.tasks[id].op, w.tasks[id].copy, now);
    if ok && v.Applied?
    then w.(state := PutIn(w.state, v.rec), tasks := w.tasks[id := LoggingWrite(v.entry)], clock := now)
    else Unlock(w.(clock := now), id)
  }

  function Apply(w: World, m: Move): World
    requires Enabled(w, m)
  {
    match m
    case BeginRegister(id, uid, req, now) =>
      w.(tasks := w.tasks[id := Registering(uid, req, now)], inProgress := w.inProgress[uid := id], clock := now)
    case PutRegister(id, ok) => ApplyPutRegister(w, id, ok)
    case LogRegister(id) => ApplyLogRegister(w, id)
    case Lock(id, uuid, op) => w.(tasks := w.tasks[id := Reading(uuid, op)], mutex := Some(id))
    case ReadAgent(id) => ApplyReadAgent(w, id)
    case PutWrite(id, now, ok) => ApplyPutWrite(w, id, now, ok)
    case LogWrite(id) => Unlock(w.(state := LogIn(w.state, w.tasks[id].entry)), id)
  }

  ghost predicate Schedule(w: World, moves: seq<Move>)
    decreases |moves|
  {
    |moves| > 0 ==> Enabled(w, moves[0]) && Schedule(Apply(w, moves[0]), moves[1..])
  }

  ghost function After(w: World, moves: seq<Move>): World
    requires Schedule(w, moves)
    decreases |moves|
  {
    if |moves| == 0 then w else After(Apply(w, moves[0]), moves[1..])
  }

  // ---------------------------------------------------------------------
  // The invariant
  // ---------------------------------------------------------------------

  /** The entries of a log that are not of a registration, in the order in which they were appended. */
  function Writes(log: seq<ChangeLog>): seq<ChangeLog> {
    if |log| == 0 then []
    else
      var last := log[|log| - 1];
      Writes(log[..|log| - 1]) + (if last.action.RegisterAction? then [] else [last])
  }

  /** The entry that the holder of the mutex has still to append for agent u. */
  function Pending(w: World, u: string): seq<ChangeLog> {
    if && w.mutex.Some? && w.mutex.value in w.tasks && w.tasks[w.mutex.value].LoggingWrite?
       && w.tasks[w.mutex.value].entry.uuid == u
    then [w.tasks[w.mutex.value].entry] else []
  }

  function FirstEntry(u: string, b: Birth): ChangeLog { RegisterEntry(u, b.req, b.now) }

  /** What has happened to agent u: its registration, the logged writes in their order, the write being logged. */
  function Story(w: World, u: string): seq<ChangeLog>
    requires u in w.births
  {
    [FirstEntry(u, w.births[u])] + Writes(LogsOf(w.state.logs, u)) + Pending(w, u)
  }

  /** Agent u's log has its writes, and its register entry unless the registration is still in progress. */
  ghost predicate LogOk(log: seq<ChangeLog>, first: ChangeLog, inProgress: bool) {
    multiset(log) == multiset(Writes(log)) + if inProgress then multiset{} else multiset{first}
  }

  ghost predicate AgentOk(w: World, u: string) {
    if u in w.state.store
    then
      && u in w.births
      && TellsStory(Story(w, u), w.state.store[u], w.births[u].req.level)
      && BornAs(w.state.store[u], w.births[u]) && w.state.store[u].updatedAt <= w.clock
      && LogOk(LogsOf(w.state.logs, u), FirstEntry(u, w.births[u]), u in w.inProgress)
    else LogsOf(w.state.logs, u) == []
  }

  ghost predicate TaskOk(w: World, id: nat, t: Task) {
    match t
    case Registering(uid, req, now) =>
      && uid in w.inProgress && w.inProgress[uid] == id && uid !in w.state.store
      && uid != "" && now <= w.clock
    case LoggingRegister(e) =>
      && e.uuid in w.inProgress && w.inProgress[e.uuid] == id
      && e.uuid in w.state.store && e.uuid in w.births && e == FirstEntry(e.uuid, w.births[e.uuid])
    case Reading(_, _) => w.mutex == Some(id)
    case Updating(u, _, copy) => w.mutex == Some(id) && u in w.state.store && copy == w.state.store[u]
    case LoggingWrite(e) => w.mutex == Some(id) && e.uuid in w.state.store && !e.action.RegisterAction?
  }

  ghost predicate TasksOk(w: World) {
    forall id :: id in w.tasks ==> TaskOk(w, id, w.tasks[id])
  }

  predicate Registers(t: Task, u: string) {
    (t.Registering? && t.uid == u) || (t.LoggingRegister? && t.entry.uuid == u)
  }

  predicate IsWrite(t: Task) { t.Reading? || t.Updating? || t.LoggingWrite? }

  /** A registration in progress has its task, and so has the mutex. */
  ghost predicate HoldersOk(w: World) {
    && (forall u :: u in w.inProgress ==> w.inProgress[u] in w.tasks && Registers(w.tasks[w.inProgress[u]], u))
    && (w.mutex.Some? ==> w.mutex.value in w.tasks && IsWrite(w.tasks[w.mutex.value]))
  }

  ghost predicate StoreOk(s: LocalState) { KeysAgree(s.store) && IndexAgrees(s.store, s.index) }

  ghost predicate AgentsOk(w: World) { forall u :: AgentOk(w, u) }

  ghost predicate Inv(w: World) {
    StoreOk(w.state) && TasksOk(w) && HoldersOk(w) && AgentsOk(w)
  }

  // ---------------------------------------------------------------------
  // Agents
  // ---------------------------------------------------------------------

  /** Nothing that the story of u speaks of differs. */
  ghost predicate SameFor(w: World, w': World, u: string) {
    && (u in w.state.store <==> u in w'.state.store)
    && LogsOf(w'.state.logs, u) == LogsOf(w.state.logs, u)
    && w.clock <= w'.clock
    && (u in w.state.store ==>
          && w'.state.store[u] == w.state.store[u]
          && (u in w.births ==> u in w'.births && w'.births[u] == w.births[u])
          && Pending(w', u) == Pending(w, u)
          && (u in w'.inProgress <==> u in w.inProgress))
  }

  lemma SameStaysOk(w: World, w': World, u: string)
    requires AgentOk(w, u) && SameFor(w, w', u)
    ensures AgentOk(w', u)
  {
    hide TellsStory, LogOk, Pending, Writes;
  }

  /** A registered agent begins its story. */
  lemma RegisteredIsOk(w: World, id: nat)
    requires Inv(w) && Enabled(w, PutRegister(id, true))
    ensures AgentOk(ApplyPutRegister(w, id, true), w.tasks[id].uid)
  {
    var t := w.tasks[id];
    var w' := ApplyPutRegister(w, id, true);
    assert TaskOk(w, id, t) && AgentOk(w, t.uid);
    NothingPending(w, t.uid);
    assert Pending(w', t.uid) == [];
    assert Story(w', t.uid) == [RegisterEntry(t.uid, t.req, t.now)];
    RegistrationStartsStory(t.uid, t.req, t.now);
  }

  lemma NothingPending(w: World, u: string)
    requires TasksOk(w) && u !in w.state.store
    ensures Pending(w, u) == []
  {
    if w.mutex.Some? && w.mutex.value in w.tasks { assert TaskOk(w, w.mutex.value, w.tasks[w.mutex.value]); }
  }

  /** Appending the register entry completes the log and changes nothing in the story. */
  lemma LoggedRegisterIsOk(w: World, id: nat)
    requires Inv(w) && Enabled(w, LogRegister(id))
    ensures AgentOk(ApplyLogRegister(w, id), w.tasks[id].entry.uuid)
  {
    var e := w.tasks[id].entry;
    assert TaskOk(w, id, w.tasks[id]) && AgentOk(w, e.uuid);
    LogCompletes(LogsOf(w.state.logs, e.uuid), e);
    StoryKeeps(w, id);
    hide TellsStory, LogOk, Writes, Pending, Story, RegisterEntry;
  }

  lemma LogCompletes(log: seq<ChangeLog>, first: ChangeLog)
    requires LogOk(log, first, true) && first.action.RegisterAction?
    ensures LogOk(log + [first], first, false)
  {
    WritesAppend(log, first);
  }

  lemma StoryKeeps(w: World, id: nat)
    requires TasksOk(w) && Enabled(w, LogRegister(id)) && w.tasks[id].entry.uuid in w.births
    ensures Story(ApplyLogRegister(w, id), w.tasks[id].entry.uuid) == Story(w, w.tasks[id].entry.uuid)
  {
    var e := w.tasks[id].entry;
    assert TaskOk(w, id, w.tasks[id]);
    WritesAppend(LogsOf(w.state.logs, e.uuid), e);
    PendingAfterRegister(w, id, e.uuid);
    hide Writes, RegisterEntry;
    assert Pending(ApplyLogRegister(w, id), e.uuid) == Pending(w.(tasks := w.tasks - {id}), e.uuid);
  }

  /** A registration that ends leaves the mutex and its holder alone. */
  lemma PendingAfterRegister(w: World, id: nat, u: string)
    requires TasksOk(w) && id in w.tasks && (w.tasks[id].Registering? || w.tasks[id].LoggingRegister?)
    ensures Pending(w.(tasks := w.tasks - {id}), u) == Pending(w, u)
  {
  }

  /** An applied write extends the story by the entry that it has still to append. */
  lemma WrittenIsOk(w: World, id: nat, now: Instant)
    requires Inv(w) && Enabled(w, PutWrite(id, now, true))
    requires LocalVerdict(w.tasks[id].op, w.tasks[id].copy, now).Applied?
    ensures AgentOk(ApplyPutWrite(w, id, now, true), w.tasks[id].uuid)
  {
    var t := w.tasks[id];
    var u, v := t.uuid, LocalVerdict(t.op, t.copy, now);
    assert TaskOk(w, id, t) && AgentOk(w, u) && t.copy.uuid == u;
    VerdictNames(t.op, t.copy, now);
    WriteExtendsStory(Story(w, u), t.copy, w.births[u].req.level, t.op, now);
    hide TellsStory, LocalVerdict, LogOk, Writes;
    StoryGrows(w, id, now);
  }

  lemma StoryGrows(w: World, id: nat, now: Instant)
    requires TasksOk(w) && Enabled(w, PutWrite(id, now, true)) && w.tasks[id].uuid in w.births
    requires LocalVerdict(w.tasks[id].op, w.tasks[id].copy, now).Applied? && w.tasks[id].copy.uuid == w.tasks[id].uuid
    ensures var w' := ApplyPutWrite(w, id, now, true);
      Story(w', w.tasks[id].uuid) ==
        Story(w, w.tasks[id].uuid) + [LocalVerdict(w.tasks[id].op, w.tasks[id].copy, now).entry]
  {
    assert TaskOk(w, id, w.tasks[id]);
    VerdictNames(w.tasks[id].op, w.tasks[id].copy, now);
    hide Writes, LocalVerdict, IndexPut;
    var u := w.tasks[id].uuid;
    assert Pending(w, u) == [];
  }

  lemma VerdictNames(op: WriteOp, r: AgentInfo, now: Instant)
    requires LocalVerdict(op, r, now).Applied?
    ensures var v := LocalVerdict(op, r, now);
      && v.rec.uuid == v.entry.uuid == r.uuid && v.rec.updatedAt == now
      && (forall b :: BornAs(r, b) <==> BornAs(v.rec, b)) && v.rec.owner == r.owner
      && !v.entry.action.RegisterAction?
  {
    hide LevelText, StateText;
  }

  /** Appending the entry of a write moves it from what is pending to what is logged. */
  lemma LoggedWriteIsOk(w: World, id: nat)
    requires Inv(w) && Enabled(w, LogWrite(id))
    ensures AgentOk(Apply(w, LogWrite(id)), w.tasks[id].entry.uuid)
  {
    var e := w.tasks[id].entry;
    var u, log := e.uuid, LogsOf(w.state.logs, e.uuid);
    assert TaskOk(w, id, w.tasks[id]) && AgentOk(w, u);
    WritesAppend(log, e);
    StoryStays(w, id);
    LogGrows(log, e, FirstEntry(u, w.births[u]), u in w.inProgress);
    hide TellsStory, LogOk, Writes, Pending, Story, FirstEntry;
  }

  lemma WritesAppend(log: seq<ChangeLog>, e: ChangeLog)
    ensures Writes(log + [e]) == Writes(log) + if e.action.RegisterAction? then [] else [e]
  {
    assert (log + [e])[..|log|] == log;
  }

  lemma LogGrows(log: seq<ChangeLog>, e: ChangeLog, first: ChangeLog, inProgress: bool)
    requires LogOk(log, first, inProgress) && !e.action.RegisterAction?
    ensures LogOk(log + [e], first, inProgress)
  {
    WritesAppend(log, e);
  }

  lemma StoryStays(w: World, id: nat)
    requires TasksOk(w) && Enabled(w, LogWrite(id)) && w.tasks[id].entry.uuid in w.births
    ensures Story(Apply(w, LogWrite(id)), w.tasks[id].entry.uuid) == Story(w, w.tasks[id].entry.uuid)
  {
    var e := w.tasks[id].entry;
    assert TaskOk(w, id, w.tasks[id]);
    var log := LogsOf(w.state.logs, e.uuid);
    WritesAppend(log, e);
    hide Writes;
    assert Pending(w, e.uuid) == [e];
    assert Pending(Apply(w, LogWrite(id)), e.uuid) == [];
  }

  // ---------------------------------------------------------------------
  // Moves
  // ---------------------------------------------------------------------

  lemma PutInKeepsStore(s: LocalState, r: AgentInfo)
    requires StoreOk(s) && r.uuid != "" && (r.uuid in s.store ==> s.store[r.uuid].owner == r.owner)
    ensures StoreOk(PutIn(s, r))
  {
    PutKeepsIndexIff(s.store, s.index, r);
  }

  lemma BeginRegisterKeepsTasks(w: World, m: Move)
    requires TasksOk(w) && HoldersOk(w) && Enabled(w, m) && m.BeginRegister?
    ensures TasksOk(Apply(w, m)) && HoldersOk(Apply(w, m))
  {
    var w' := Apply(w, m);
    forall i | i in w'.tasks ensures TaskOk(w', i, w'.tasks[i]) {
      if i != m.id { assert TaskOk(w, i, w.tasks[i]); }
    }
  }

  lemma BeginRegisterLeaves(w: World, m: Move, u: string)
    requires HoldersOk(w) && Enabled(w, m) && m.BeginRegister?
    ensures SameFor(w, Apply(w, m), u)
  {
  }

  lemma BeginRegisterKeepsInv(w: World, m: Move)
    requires Inv(w) && Enabled(w, m) && m.BeginRegister?
    ensures Inv(Apply(w, m))
  {
    var w' := Apply(w, m);
    BeginRegisterKeepsTasks(w, m);
    hide AgentOk, StoreOk, TasksOk, HoldersOk;
    forall u ensures AgentOk(w', u) {
      assert AgentOk(w, u);
      BeginRegisterLeaves(w, m, u);
      SameStaysOk(w, w', u);
    }
  }

  lemma PutRegisterKeepsTasks(w: World, id: nat, ok: bool)
    requires TasksOk(w) && HoldersOk(w) && Enabled(w, PutRegister(id, ok))
    ensures TasksOk(ApplyPutRegister(w, id, ok)) && HoldersOk(ApplyPutRegister(w, id, ok))
  {
    hide IndexPut;
    var w' := ApplyPutRegister(w, id, ok);
    assert TaskOk(w, id, w.tasks[id]);
    forall i | i in w'.tasks ensures TaskOk(w', i, w'.tasks[i]) {
      if i != id { assert TaskOk(w, i, w.tasks[i]); }
    }
  }

  lemma PutRegisterKeepsInv(w: World, id: nat, ok: bool)
    requires Inv(w) && Enabled(w, PutRegister(id, ok))
    ensures Inv(ApplyPutRegister(w, id, ok))
  {
    var t, w' := w.tasks[id], ApplyPutRegister(w, id, ok);
    assert TaskOk(w, id, t);
    PutRegisterKeepsTasks(w, id, ok);
    if ok {
      PutInKeepsStore(w.state, Registration(t.uid, t.req, t.now));
      RegisteredIsOk(w, id);
    }
    hide TellsStory, LogOk, StoreOk, TasksOk, Story, IndexPut;
    forall u ensures AgentOk(w', u) {
      assert AgentOk(w, u);
      if u != t.uid || !ok {
        PutRegisterLeaves(w, id, ok, u);
        SameStaysOk(w, w', u);
      }
    }
  }

  lemma PutRegisterLeaves(w: World, id: nat, ok: bool, u: string)
    requires TasksOk(w) && HoldersOk(w) && Enabled(w, PutRegister(id, ok)) && (u != w.tasks[id].uid || !ok)
    ensures SameFor(w, ApplyPutRegister(w, id, ok), u)
  {
    hide IndexPut;
    assert TaskOk(w, id, w.tasks[id]);
  }

  lemma LogRegisterKeepsTasks(w: World, id: nat)
    requires TasksOk(w) && HoldersOk(w) && Enabled(w, LogRegister(id))
    ensures TasksOk(ApplyLogRegister(w, id)) && HoldersOk(ApplyLogRegister(w, id))
  {
    hide LogsAppend;
    var w' := ApplyLogRegister(w, id);
    assert TaskOk(w, id, w.tasks[id]);
    forall i | i in w'.tasks ensures TaskOk(w', i, w'.tasks[i]) { assert TaskOk(w, i, w.tasks[i]); }
  }

  lemma LogRegisterLeaves(w: World, id: nat, u: string)
    requires TasksOk(w) && HoldersOk(w) && Enabled(w, LogRegister(id)) && u != w.tasks[id].entry.uuid
    ensures SameFor(w, ApplyLogRegister(w, id), u)
  {
  }

  lemma LogRegisterKeepsInv(w: World, id: nat)
    requires Inv(w) && Enabled(w, LogRegister(id))
    ensures Inv(ApplyLogRegister(w, id))
  {
    var e, w' := w.tasks[id].entry, ApplyLogRegister(w, id);
    LogRegisterKeepsTasks(w, id);
    LoggedRegisterIsOk(w, id);
    hide AgentOk, StoreOk, TasksOk, HoldersOk;
    forall u ensures AgentOk(w', u) {
      assert AgentOk(w, u);
      if u != e.uuid {
        LogRegisterLeaves(w, id, u);
        SameStaysOk(w, w', u);
      }
    }
    assert StoreOk(w'.state) by { SameStore(w.state, w'.state); }
  }

  lemma SameStore(s: LocalState, s': LocalState)
    requires StoreOk(s) && s'.store == s.store && s'.index == s.index
    ensures StoreOk(s')
  {
  }

  lemma LockingKeepsTasks(w: World, m: Move)
    requires TasksOk(w) && HoldersOk(w) && Enabled(w, m) && (m.Lock? || m.ReadAgent?)
    ensures TasksOk(Apply(w, m)) && HoldersOk(Apply(w, m))
  {
    var w' := Apply(w, m);
    if m.id in w.tasks { assert TaskOk(w, m.id, w.tasks[m.id]); }
    forall i | i in w'.tasks ensures TaskOk(w', i, w'.tasks[i]) {
      if i != m.id { assert TaskOk(w, i, w.tasks[i]); }
    }
  }

  lemma LockingLeaves(w: World, m: Move, u: string)
    requires TasksOk(w) && HoldersOk(w) && Enabled(w, m) && (m.Lock? || m.ReadAgent?)
    ensures SameFor(w, Apply(w, m), u)
  {
    if m.id in w.tasks { assert TaskOk(w, m.id, w.tasks[m.id]); }
  }

  /** Taking and giving back the mutex, and reading under it. */
  lemma LockingKeepsInv(w: World, m: Move)
    requires Inv(w) && Enabled(w, m) && (m.Lock? || m.ReadAgent?)
    ensures Inv(Apply(w, m))
  {
    var w' := Apply(w, m);
    LockingKeepsTasks(w, m);
    hide AgentOk, StoreOk, TasksOk, HoldersOk;
    forall u ensures AgentOk(w', u) {
      assert AgentOk(w, u);
      LockingLeaves(w, m, u);
      SameStaysOk(w, w', u);
    }
  }

  /** The holder of the mutex is the only call that writes, so no other copy goes out of date. */
  lemma OthersStayOk(w: World, w': World, id: nat, i: nat)
    requires w.mutex == Some(id) && i != id && i in w.tasks && TaskOk(w, i, w.tasks[i])
    requires w'.state.store.Keys == w.state.store.Keys && w'.births == w.births && w'.inProgress == w.inProgress
    requires w.clock <= w'.clock
    ensures TaskOk(w', i, w.tasks[i])
  {
    hide RegisterEntry;
  }

  lemma PutWriteKeepsTasks(w: World, id: nat, now: Instant, ok: bool)
    requires TasksOk(w) && HoldersOk(w) && KeysAgree(w.state.store) && Enabled(w, PutWrite(id, now, ok))
    ensures TasksOk(ApplyPutWrite(w, id, now, ok)) && HoldersOk(ApplyPutWrite(w, id, now, ok))
  {
    var t, w' := w.tasks[id], ApplyPutWrite(w, id, now, ok);
    assert TaskOk(w, id, t);
    if LocalVerdict(t.op, t.copy, now).Applied? { VerdictNames(t.op, t.copy, now); }
    hide LocalVerdict, IndexPut, FirstEntry;
    assert w'.state.store.Keys == w.state.store.Keys;
    forall i | i in w'.tasks && i != id ensures TaskOk(w', i, w'.tasks[i]) {
      assert TaskOk(w, i, w.tasks[i]);
      OthersStayOk(w, w', id, i);
    }
  }

  lemma PutWriteLeaves(w: World, id: nat, now: Instant, ok: bool, u: string)
    requires TasksOk(w) && HoldersOk(w) && KeysAgree(w.state.store) && Enabled(w, PutWrite(id, now, ok))
    requires u != w.tasks[id].uuid || !ok || !LocalVerdict(w.tasks[id].op, w.tasks[id].copy, now).Applied?
    ensures SameFor(w, ApplyPutWrite(w, id, now, ok), u)
  {
    var t := w.tasks[id];
    assert TaskOk(w, id, t);
    if LocalVerdict(t.op, t.copy, now).Applied? { VerdictNames(t.op, t.copy, now); }
    hide LocalVerdict, IndexPut;
  }

  lemma PutWriteKeepsInv(w: World, id: nat, now: Instant, ok: bool)
    requires Inv(w) && Enabled(w, PutWrite(id, now, ok))
    ensures Inv(ApplyPutWrite(w, id, now, ok))
  {
    var t, w' := w.tasks[id], ApplyPutWrite(w, id, now, ok);
    assert TaskOk(w, id, t);
    var v := LocalVerdict(t.op, t.copy, now);
    PutWriteKeepsTasks(w, id, now, ok);
    if ok && v.Applied? {
      VerdictNames(t.op, t.copy, now);
      PutInKeepsStore(w.state, v.rec);
      WrittenIsOk(w, id, now);
    }
    hide AgentOk, IndexAgrees, TasksOk, HoldersOk, LocalVerdict, PutIn;
    forall u ensures AgentOk(w', u) {
      assert AgentOk(w, u);
      if u != t.uuid || !ok || !v.Applied? {
        PutWriteLeaves(w, id, now, ok, u);
        SameStaysOk(w, w', u);
      }
    }
  }

  lemma LogWriteKeepsTasks(w: World, id: nat)
    requires TasksOk(w) && HoldersOk(w) && Enabled(w, LogWrite(id))
    ensures TasksOk(Apply(w, LogWrite(id))) && HoldersOk(Apply(w, LogWrite(id)))
  {
    hide LogsAppend;
    var w' := Apply(w, LogWrite(id));
    assert TaskOk(w, id, w.tasks[id]);
    forall i | i in w'.tasks ensures TaskOk(w', i, w'.tasks[i]) { assert TaskOk(w, i, w.tasks[i]); }
  }

  lemma LogWriteLeaves(w: World, id: nat, u: string)
    requires TasksOk(w) && Enabled(w, LogWrite(id)) && u != w.tasks[id].entry.uuid
    ensures SameFor(w, Apply(w, LogWrite(id)), u)
  {
    assert TaskOk(w, id, w.tasks[id]);
  }

  lemma LogWriteKeepsInv(w: World, id: nat)
    requires Inv(w) && Enabled(w, LogWrite(id))
    ensures Inv(Apply(w, LogWrite(id)))
  {
    var e, w' := w.tasks[id].entry, Apply(w, LogWrite(id));
    LogWriteKeepsTasks(w, id);
    LoggedWriteIsOk(w, id);
    hide AgentOk, StoreOk, TasksOk, HoldersOk;
    forall u ensures AgentOk(w', u) {
      assert AgentOk(w, u);
      if u != e.uuid {
        LogWriteLeaves(w, id, u);
        SameStaysOk(w, w', u);
      }
    }
    assert StoreOk(w'.state) by { SameStore(w.state, w'.state); }
  }

  /** Every access of every call keeps the invariant. */
  lemma MoveKeepsInv(w: World, m: Move)
    requires Inv(w) && Enabled(w, m)
    ensures Inv(Apply(w, m))
  {
    hide Inv;
    match m
    case BeginRegister(_, _, _, _) => BeginRegisterKeepsInv(w, m);
    case PutRegister(id, ok) => PutRegisterKeepsInv(w, id, ok);
    case LogRegister(id) => LogRegisterKeepsInv(w, id);
    case Lock(_, _, _) => LockingKeepsInv(w, m);
    case ReadAgent(_) => LockingKeepsInv(w, m);
    case PutWrite(id, now, ok) => PutWriteKeepsInv(w, id, now, ok);
    case LogWrite(id) => LogWriteKeepsInv(w, id);
  }

  lemma {:induction false} ScheduleKeepsInv(w: World, moves: seq<Move>)
    requires Inv(w) && Schedule(w, moves)
    ensures Inv(After(w, moves))
    decreases |moves|
  {
    hide Inv, Enabled, Apply;
    if |moves| > 0 {
      MoveKeepsInv(w, moves[0]);
      ScheduleKeepsInv(Apply(w, moves[0]), moves[1..]);
    }
  }

  // ---------------------------------------------------------------------
  // What a reader of the log gets
  // ---------------------------------------------------------------------

  // The births are registrations of the schedule.

  ghost predicate Begun(past: seq<Move>, uid: string, req: RegisterRequest, now: Instant) {
    exists m :: m in past && m.BeginRegister? && m.uid == uid && m.req == req && m.now == now
  }

  ghost predicate FromPast(w: World, past: seq<Move>) {
    && (forall u :: u in w.births ==> Begun(past, u, w.births[u].req, w.births[u].now))
    && (forall id :: id in w.tasks && w.tasks[id].Registering? ==>
          Begun(past, w.tasks[id].uid, w.tasks[id].req, w.tasks[id].now))
  }

  lemma MoveIsPast(w: World, past: seq<Move>, m: Move)
    requires FromPast(w, past) && Enabled(w, m)
    ensures FromPast(Apply(w, m), past + [m])
  {
    hide LocalVerdict, IndexPut, LogsAppend;
    forall uid, req, now | Begun(past, uid, req, now) ensures Begun(past + [m], uid, req, now) {
      var x :| x in past && x.BeginRegister? && x.uid == uid && x.req == req && x.now == now;
      assert x in past + [m];
    }
    assert m in past + [m];
  }

  lemma {:induction false} ScheduleIsPast(w: World, past: seq<Move>, moves: seq<Move>)
    requires FromPast(w, past) && Schedule(w, moves)
    ensures FromPast(After(w, moves), past + moves)
    decreases |moves|
  {
    hide FromPast, Enabled, Apply;
    if |moves| > 0 {
      MoveIsPast(w, past, moves[0]);
      ScheduleIsPast(Apply(w, moves[0]), past + [moves[0]], moves[1..]);
      assert past + [moves[0]] + moves[1..] == past + moves;
    } else {
      assert past + moves == past;
    }
  }

  // So is what the log says.

  /** The entry is of a registration that began, by its owner, or of a write that took the mutex, with what it asked
      for and its reason. */
  ghost predicate OfCall(past: seq<Move>, e: ChangeLog) {
    if e.action.RegisterAction?
    then exists id, req :: BeginRegister(id, e.uuid, req, e.occurredAt) in past
           && e == ChangeLog(e.uuid, RegisterAction, req.owner, "", "registered", "", "", e.occurredAt)
    else exists id, op, r: AgentInfo ::
           Lock(id, e.uuid, op) in past && r.uuid == e.uuid && e == EntryFor(op, r, e.occurredAt)
  }

  ghost predicate TaskOfCall(past: seq<Move>, t: Task) {
    match t
    case Registering(uid, req, now) => exists id :: BeginRegister(id, uid, req, now) in past
    case LoggingRegister(e) => OfCall(past, e)
    case Reading(u, op) => exists id :: Lock(id, u, op) in past
    case Updating(u, op, copy) => copy.uuid == u && exists id :: Lock(id, u, op) in past
    case LoggingWrite(e) => OfCall(past, e)
  }

  ghost predicate LogsOfCalls(logs: Logs, past: seq<Move>) {
    forall u, e :: e in LogsOf(logs, u) ==> OfCall(past, e)
  }

  ghost predicate AllOfCalls(w: World, past: seq<Move>) {
    && (forall u :: u in w.state.store ==> w.state.store[u].uuid == u)
    && LogsOfCalls(w.state.logs, past)
    && (forall id :: id in w.tasks ==> TaskOfCall(past, w.tasks[id]))
  }

  lemma LaterOfCall(past: seq<Move>, m: Move, e: ChangeLog)
    requires OfCall(past, e)
    ensures OfCall(past + [m], e)
  {
    hide EntryFor;
    if e.action.RegisterAction? {
      var id, req :| BeginRegister(id, e.uuid, req, e.occurredAt) in past
        && e == ChangeLog(e.uuid, RegisterAction, req.owner, "", "registered", "", "", e.occurredAt);
      assert BeginRegister(id, e.uuid, req, e.occurredAt) in past + [m];
    } else {
      var id, op, r: AgentInfo :|
        Lock(id, e.uuid, op) in past && r.uuid == e.uuid && e == EntryFor(op, r, e.occurredAt);
      assert Lock(id, e.uuid, op) in past + [m];
    }
  }

  lemma LaterTaskOfCall(past: seq<Move>, m: Move, t: Task)
    requires TaskOfCall(past, t)
    ensures TaskOfCall(past + [m], t)
  {
    hide OfCall;
    match t
    case Registering(uid, req, now) =>
      var id :| BeginRegister(id, uid, req, now) in past;
      assert BeginRegister(id, uid, req, now) in past + [m];
    case LoggingRegister(e) => LaterOfCall(past, m, e);
    case Reading(u, op) =>
      var id :| Lock(id, u, op) in past;
      assert Lock(id, u, op) in past + [m];
    case Updating(u, op, _) =>
      var id :| Lock(id, u, op) in past;
      assert Lock(id, u, op) in past + [m];
    case LoggingWrite(e) => LaterOfCall(past, m, e);
  }

  /** What a move leaves its own task with is of a call too. */
  lemma NextTaskOfCall(w: World, past: seq<Move>, m: Move)
    requires AllOfCalls(w, past) && Enabled(w, m) && m.id in Apply(w, m).tasks
    ensures TaskOfCall(past + [m], Apply(w, m).tasks[m.id])
  {
    hide LogsOfCalls, EntryFor, IndexPut;
    assert m in past + [m];
    if m.id in w.tasks {
      var t := w.tasks[m.id];
      assert TaskOfCall(past, t);
      LaterTaskOfCall(past, m, t);
      if m.PutRegister? {
        var id :| BeginRegister(id, t.uid, t.req, t.now) in past + [m];
        StateTexts();
      }
      if m.PutWrite? {
        VerdictMeans(t.op, t.copy, m.now);
        VerdictNames(t.op, t.copy, m.now);
        var id :| Lock(id, t.uuid, t.op) in past + [m];
      }
    }
  }

  lemma TasksStayOfCalls(w: World, past: seq<Move>, m: Move)
    requires AllOfCalls(w, past) && Enabled(w, m)
    ensures forall id :: id in Apply(w, m).tasks ==> TaskOfCall(past + [m], Apply(w, m).tasks[id])
  {
    hide TaskOfCall, LocalVerdict, IndexPut, LogsOfCalls, LogsAppend;
    var w' := Apply(w, m);
    forall id | id in w'.tasks ensures TaskOfCall(past + [m], w'.tasks[id]) {
      if id == m.id { NextTaskOfCall(w, past, m); } else { LaterTaskOfCall(past, m, w.tasks[id]); }
    }
  }

  lemma LogsStayOfCalls(w: World, past: seq<Move>, m: Move)
    requires AllOfCalls(w, past) && Enabled(w, m)
    ensures LogsOfCalls(Apply(w, m).state.logs, past + [m])
  {
    hide OfCall, LocalVerdict, IndexPut;
    var w' := Apply(w, m);
    forall u, e | e in LogsOf(w'.state.logs, u) ensures OfCall(past + [m], e) {
      if e !in LogsOf(w.state.logs, u) { assert TaskOfCall(past, w.tasks[m.id]); }
      LaterOfCall(past, m, e);
    }
  }

  lemma UuidsStayKeys(w: World, past: seq<Move>, m: Move)
    requires AllOfCalls(w, past) && Enabled(w, m)
    ensures forall u :: u in Apply(w, m).state.store ==> Apply(w, m).state.store[u].uuid == u
  {
    hide OfCall, LogsOfCalls, EntryFor, IndexPut, LogsAppend, LocalVerdict;
    if m.PutWrite? && LocalVerdict(w.tasks[m.id].op, w.tasks[m.id].copy, m.now).Applied? {
      VerdictNames(w.tasks[m.id].op, w.tasks[m.id].copy, m.now);
    }
  }

  lemma MoveIsOfCall(w: World, past: seq<Move>, m: Move)
    requires AllOfCalls(w, past) && Enabled(w, m)
    ensures AllOfCalls(Apply(w, m), past + [m])
  {
    TasksStayOfCalls(w, past, m);
    LogsStayOfCalls(w, past, m);
    UuidsStayKeys(w, past, m);
  }

  lemma {:induction false} ScheduleIsOfCalls(w: World, past: seq<Move>, moves: seq<Move>)
    requires AllOfCalls(w, past) && Schedule(w, moves)
    ensures AllOfCalls(After(w, moves), past + moves)
    decreases |moves|
  {
    hide AllOfCalls, Enabled, Apply;
    if |moves| > 0 {
      MoveIsOfCall(w, past, moves[0]);
      ScheduleIsOfCalls(Apply(w, moves[0]), past + [moves[0]], moves[1..]);
      assert past + [moves[0]] + moves[1..] == past + moves;
    } else {
      assert past + moves == past;
    }
  }

  /** In every interleaving, at every moment: each agent carries the owner, permission, key and time of the registration
      of the schedule that put it; its story replays, from that registration's level, to its present state and level;
      each entry of its log is of a call of the schedule; and the owner index is a scan of the store. */
  lemma EveryInterleavingTellsStories(clock: Instant, moves: seq<Move>, u: string)
    requires Schedule(Begin(clock), moves) && u in After(Begin(clock), moves).state.store
    ensures var w := After(Begin(clock), moves);
      && u in w.births && TellsStory(Story(w, u), w.state.store[u], w.births[u].req.level)
      && BornAs(w.state.store[u], w.births[u])
      && (exists m :: m in moves && m.BeginRegister? && m.uid == u && w.births[u] == Birth(m.req, m.now))
      && (forall e :: e in LogsOf(w.state.logs, u) ==> OfCall(moves, e))
      && IndexAgrees(w.state.store, w.state.index)
  {
    hide TellsStory, OfCall;
    ScheduleIsPast(Begin(clock), [], moves);
    ScheduleIsOfCalls(Begin(clock), [], moves);
    assert [] + moves == moves;
    assert Begun(moves, u, After(Begin(clock), moves).births[u].req, After(Begin(clock), moves).births[u].now) by {
      ScheduleKeepsInv(Begin(clock), moves);
      assert AgentOk(After(Begin(clock), moves), u);
    }
    ScheduleKeepsInv(Begin(clock), moves);
    assert AgentOk(After(Begin(clock), moves), u);
  }

  /** When no call is in progress the log holds the story, and sorted newest first, by any sort, it is the story
      backwards, although its entries may have been appended out of order. */
  lemma EveryInterleavingIsAudited(clock: Instant, moves: seq<Move>, u: string, out: seq<ChangeLog>)
    requires Schedule(Begin(clock), moves) && After(Begin(clock), moves).tasks == map[]
    requires u in After(Begin(clock), moves).state.store
    requires multiset(out) == multiset(LogsOf(After(Begin(clock), moves).state.logs, u)) && NewestFirst(out)
    ensures var w := After(Begin(clock), moves);
      && u in w.births && out == Reversed(Story(w, u))
      && TellsStory(Story(w, u), w.state.store[u], w.births[u].req.level)
  {
    var w := After(Begin(clock), moves);
    ScheduleKeepsInv(Begin(clock), moves);
    QuietLogIsStory(w, u);
    assert AgentOk(w, u);
    NewestFirstIsReversal(Story(w, u), out);
  }

  lemma QuietLogIsStory(w: World, u: string)
    requires Inv(w) && w.tasks == map[] && u in w.state.store
    ensures u in w.births && u !in w.inProgress
    ensures Story(w, u) == [FirstEntry(u, w.births[u])] + Writes(LogsOf(w.state.logs, u))
    ensures multiset(LogsOf(w.state.logs, u)) == multiset(Story(w, u))
  {
    assert AgentOk(w, u);
  }

  lemma {:induction false} WritesHead(x: ChangeLog, rest: seq<ChangeLog>)
    ensures Writes([x] + rest) == (if x.action.RegisterAction? then [] else [x]) + Writes(rest)
  {
    if |rest| == 0 {
      assert ([x] + rest)[..0] == [];
    } else {
      var n := |rest| - 1;
      assert ([x] + rest)[..n + 1] == [x] + rest[..n];
      WritesHead(x, rest[..n]);
    }
  }

  lemma {:induction false} WritesLength(log: seq<ChangeLog>)
    ensures |Writes(log)| <= |log|
    ensures |Writes(log)| == |log| ==> Writes(log) == log
  {
    if |log| > 0 {
      WritesLength(log[..|log| - 1]);
      WritesLength(log[..|log| - 1]);
      assert log == log[..|log| - 1] + [log[|log| - 1]];
    }
  }

  /** A log with one register entry, in front, is that entry and the writes. */
  lemma FrontIsFirst(log: seq<ChangeLog>, first: ChangeLog)
    requires LogOk(log, first, false) && |log| > 0 && log[0].action.RegisterAction?
    ensures log == [first] + Writes(log)
  {
    var x, rest := log[0], log[1..];
    assert log == [x] + rest;
    WritesHead(x, rest);
    assert |multiset(log)| == |log| && |multiset(Writes(log))| == |Writes(log)|;
    WritesLength(rest);
    assert Writes(log) == rest;
    hide Writes;
    SameRest(x, first, multiset(rest));
  }

  lemma SameRest<T>(x: T, y: T, rest: multiset<T>)
    requires multiset{x} + rest == rest + multiset{y}
    ensures x == y
  {
    assert (multiset{x} + rest)[x] == rest[x] + 1;
    assert (rest + multiset{y})[x] == rest[x] + if x == y then 1 else 0;
  }

  /** A log that does not begin with a register entry does not replay. */
  lemma BadStartBreaks(log: seq<ChangeLog>, level0: uint8)
    requires |log| > 0 && !log[0].action.RegisterAction?
    ensures Replay(log, level0) == Broken
  {
    assert log[..1][..0] == [] && log[..1][0] == log[0];
    assert Replay(log[..1], level0) == ReplayEntry(Blank, log[0], level0) == Broken;
    if Replay(log, level0) != Broken { ReplayPrefixes(log, level0, 1); }
  }

  /** In the order of appending a quiet log replays if and only if its register entry was appended first. */
  lemma AppendedLogReplaysIff(w: World, u: string)
    requires Inv(w) && w.tasks == map[] && u in w.state.store
    ensures u in w.births && |LogsOf(w.state.logs, u)| > 0
    ensures var log := LogsOf(w.state.logs, u);
      Replay(log, w.births[u].req.level) != Broken <==> log[0].action.RegisterAction?
  {
    QuietLogIsStory(w, u);
    assert AgentOk(w, u);
    var log, level0 := LogsOf(w.state.logs, u), w.births[u].req.level;
    assert |multiset(log)| == |log| && |multiset(Story(w, u))| == |Story(w, u)|;
    if log[0].action.RegisterAction? {
      FrontIsFirst(log, FirstEntry(u, w.births[u]));
      assert log == Story(w, u);
    } else {
      BadStartBreaks(log, level0);
    }
  }

  // ---------------------------------------------------------------------
  // Out of order
  // ---------------------------------------------------------------------

  const REQ := RegisterRequest("alice", 1, 0, "pk")
  const NEW_AGENT := Registration("u", REQ, 1)
  const REGISTERED := RegisterEntry("u", REQ, 1)
  const BANNED := ChangeLog("u", BanAction, "", "registered", "banned", "fraud", "", 2)

  /** A ban between the put and the append of a registration. */
  const LATE: seq<Move> := [
    BeginRegister(0, "u", REQ, 1), PutRegister(0, true), Lock(1, "u", Ban("fraud")), ReadAgent(1),
    PutWrite(1, 2, true), LogWrite(1), LogRegister(0)]

  /** The registration puts, */
  lemma LateBegins() returns (w1: World, w2: World)
    ensures Enabled(Begin(0), LATE[0]) && w1 == Apply(Begin(0), LATE[0])
    ensures Enabled(w1, LATE[1]) && w2 == Apply(w1, LATE[1])
    ensures w2.state.store == map["u" := NEW_AGENT] && w2.state.logs == map[] && w2.clock == 1 && w2.mutex == None
    ensures w2.tasks == map[0 := LoggingRegister(REGISTERED)]
  {
    w1 := Apply(Begin(0), LATE[0]);
    assert w1.tasks == map[0 := Registering("u", REQ, 1)];
    w2 := Apply(w1, LATE[1]);
  }

  /** the ban takes the mutex and reads, */
  lemma LateLocks(w2: World) returns (w3: World, w4: World)
    requires w2.state.store == map["u" := NEW_AGENT] && w2.mutex == None
    requires w2.tasks == map[0 := LoggingRegister(REGISTERED)]
    ensures Enabled(w2, LATE[2]) && w3 == Apply(w2, LATE[2])
    ensures Enabled(w3, LATE[3]) && w4 == Apply(w3, LATE[3])
    ensures w4.state == w2.state && w4.clock == w2.clock
    ensures w4.tasks == map[0 := LoggingRegister(REGISTERED), 1 := Updating("u", Ban("fraud"), NEW_AGENT)]
  {
    w3 := Apply(w2, LATE[2]);
    assert w3.tasks == map[0 := LoggingRegister(REGISTERED), 1 := Reading("u", Ban("fraud"))];
    w4 := Apply(w3, LATE[3]);
  }

  /** puts, */
  lemma LateBans(w4: World) returns (w5: World)
    requires w4.clock == 1
    requires w4.tasks == map[0 := LoggingRegister(REGISTERED), 1 := Updating("u", Ban("fraud"), NEW_AGENT)]
    ensures Enabled(w4, LATE[4]) && w5 == Apply(w4, LATE[4])
    ensures w5.state.logs == w4.state.logs && "u" in w5.state.store
    ensures w5.tasks == map[0 := LoggingRegister(REGISTERED), 1 := LoggingWrite(BANNED)]
  {
    BanOfNewAgent();
    hide LocalVerdict, IndexPut;
    w5 := Apply(w4, LATE[4]);
  }

  lemma BanOfNewAgent()
    ensures LocalVerdict(Ban("fraud"), NEW_AGENT, 2) == Applied(NEW_AGENT.(state := Banned, updatedAt := 2), BANNED)
  {
  }

  /** and both append, the ban first. */
  lemma LateEnds(w5: World) returns (w6: World, w7: World)
    requires w5.state.logs == map[] && "u" in w5.state.store
    requires w5.tasks == map[0 := LoggingRegister(REGISTERED), 1 := LoggingWrite(BANNED)]
    ensures Enabled(w5, LATE[5]) && w6 == Apply(w5, LATE[5])
    ensures Enabled(w6, LATE[6]) && w7 == Apply(w6, LATE[6])
    ensures w7.tasks == map[] && "u" in w7.state.store && LogsOf(w7.state.logs, "u") == [BANNED, REGISTERED]
  {
    w6 := Apply(w5, LATE[5]);
    assert w6.tasks == map[0 := LoggingRegister(REGISTERED)] && LogsOf(w6.state.logs, "u") == [BANNED];
    w7 := Apply(w6, LATE[6]);
  }

  /** The ban is logged before the registration, so the log as it was appended does not replay. */
  lemma LateRegisterEntry()
    ensures Schedule(Begin(0), LATE)
    ensures var w := After(Begin(0), LATE);
      && w.tasks == map[] && LogsOf(w.state.logs, "u") == [BANNED, REGISTERED]
      && "u" in w.state.store && Replay(LogsOf(w.state.logs, "u"), 1) == Broken
  {
    hide Schedule, After, Apply, Enabled;
    var w1, w2 := LateBegins();
    var w3, w4 := LateLocks(w2);
    var w5 := LateBans(w4);
    var w6, w7 := LateEnds(w5);
    SevenMoves(Begin(0), LATE, w1, w2, w3, w4, w5, w6, w7);
    BadStartBreaks([BANNED, REGISTERED], 1);
  }

  lemma SevenMoves(w: World, m: seq<Move>, w1: World, w2: World, w3: World, w4: World, w5: World, w6: World, w7: World)
    requires |m| == 7
    requires Enabled(w, m[0]) && Apply(w, m[0]) == w1 && Enabled(w1, m[1]) && Apply(w1, m[1]) == w2
    requires Enabled(w2, m[2]) && Apply(w2, m[2]) == w3 && Enabled(w3, m[3]) && Apply(w3, m[3]) == w4
    requires Enabled(w4, m[4]) && Apply(w4, m[4]) == w5 && Enabled(w5, m[5]) && Apply(w5, m[5]) == w6
    requires Enabled(w6, m[6]) && Apply(w6, m[6]) == w7
    ensures Schedule(w, m) && After(w, m) == w7
  {
    hide Enabled, Apply;
    assert m[7..] == [] && Schedule(w7, m[7..]) && After(w7, m[7..]) == w7;
    assert m[6..][1..] == m[7..] && Schedule(w6, m[6..]) && After(w6, m[6..]) == w7;
    assert m[5..][1..] == m[6..] && Schedule(w5, m[5..]) && After(w5, m[5..]) == w7;
    assert m[4..][1..] == m[5..] && Schedule(w4, m[4..]) && After(w4, m[4..]) == w7;
    assert m[3..][1..] == m[4..] && Schedule(w3, m[3..]) && After(w3, m[3..]) == w7;
    assert m[2..][1..] == m[3..] && Schedule(w2, m[2..]) && After(w2, m[2..]) == w7;
    assert m[1..][1..] == m[2..] && Schedule(w1, m[1..]) && After(w1, m[1..]) == w7;
  }
}
