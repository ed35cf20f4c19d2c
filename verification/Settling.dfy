/** When do interleaved runs converge? The moves of module Interleaving, with the chain's clock ahead of every stamp
    taken before, and any access failing. The answer is exact, access by access: only a local write that is put
    when it no longer agrees with the chain leaves an agent that no pass repairs (MoveSettlesIff). */
module Settling {
  import opened Prelude
  import opened Records
  import opened MemoryPersistence
  import opened LocalBackend
  import opened Onchain
  import opened Hybrid
  import opened Convergence
  import opened Interleaving

  // ---------------------------------------------------------------------
  // Stamps
  // ---------------------------------------------------------------------

  function Later(t: Instant, s: Instant): Instant { if t < s then s else t }

  /** The latest stamp taken so far. */
  function Tick(t: Instant, m: Move): Instant {
    match m
    case BeginRegister(_, _, _, stamp) => Later(t, stamp)
    case ConfirmRegister(_, _, now, _) => Later(t, now)
    case ConfirmWrite(_, _, _, now, _) => Later(t, now)
    case PutLocal(_, now, _) => Later(t, now)
    case _ => t
  }

  /** The chain stamps a transaction later than anything was stamped before it. A local write may have read the
      clock at any time. */
  predicate InTime(t: Instant, m: Move) {
    (m.ConfirmRegister? || m.ConfirmWrite?) ==> t < m.now
  }

  predicate StampedBy(t: Instant, task: Task) {
    match task
    case Confirming(_, _, stamp) => stamp <= t
    case Mirroring(r) => r.updatedAt <= t
    case Backfilling(r) => r.updatedAt <= t
    case Repairing(_, r) => r.updatedAt <= t
    case _ => true
  }

  ghost predicate Timed(w: World, t: Instant) {
    && LedgerOk(w.ledger, t)
    && (forall u :: u in w.store ==> w.store[u].updatedAt <= t)
    && (forall id :: id in w.tasks ==> StampedBy(t, w.tasks[id]))
  }

  // ---------------------------------------------------------------------
  // Settled agents and fresh copies
  // ---------------------------------------------------------------------

  /** Every agent of the chain is missing from the mirror, older there, or equal. */
  ghost predicate MirrorSettled(w: World) {
    forall u :: u in w.ledger ==> Settled(w.store, w.ledger[u])
  }

  /** A copy equals the chain's present view, or is strictly older than it. */
  ghost predicate Fresh(c: Ledger, r: AgentInfo) {
    r.uuid in c && (r.updatedAt < c[r.uuid].updatedAt || SameView(r, c[r.uuid]))
  }

  ghost predicate TaskFresh(c: Ledger, task: Task) {
    match task
    case Mirroring(r) => Fresh(c, r)
    case Backfilling(r) => Fresh(c, r)
    case Repairing(_, r) => Fresh(c, r)
    case _ => true
  }

  /** The copies that calls hold only to put them are fresh. */
  ghost predicate CopiesFresh(w: World) {
    forall id :: id in w.tasks ==> TaskFresh(w.ledger, w.tasks[id])
  }

  /** The local half of a write changes the copy that it read into a record that is not what the chain shows now:
      the guard of the local branch that writes, and a field in which the result disagrees. */
  predicate Stale(op: WriteOp, a: AgentOnchain, copy: AgentInfo) {
    match op
    case Upgrade(n, _) =>
      && copy.state != Banned && copy.state != Unregistered && n > copy.level
      && (n != a.level || copy.state != MapChainState(a.state))
    case Ban(_) =>
      copy.state != Banned && copy.state != Unregistered && (a.state != ChainBanned || copy.level != a.level)
    case Unban => copy.state == Banned && (a.state != ChainActive || copy.level != a.level)
    case Unregister => copy.state != Unregistered && (a.state != ChainRevoked || copy.level != a.level)
  }

  /** Such a record is put, with a stamp that is not older than the chain's. */
  predicate StalePut(w: World, m: Move) {
    && m.PutLocal? && m.ok && m.id in w.tasks && w.tasks[m.id].Writing?
    && var t := w.tasks[m.id];
       t.uuid in w.ledger && w.ledger[t.uuid].updatedAt <= m.now && Stale(t.op, w.ledger[t.uuid], t.copy)
  }

  /** When nothing is confirmed between a write and its local half, stale is clobbering: the condition of module
      Convergence is the undisturbed case of this one. */
  lemma StaleIsClobbering(a: AgentOnchain, op: WriteOp, copy: AgentInfo, now: Instant)
    requires a.state != ChainUnchanged && Transact(a, op, now).Some?
    ensures Stale(op, Transact(a, op, now).value, copy) <==> Clobbers(op, a, copy)
  {
  }

  /** So an undisturbed write to a copy that agrees with the chain is never put stale. */
  lemma UndisturbedIsNotStale(a: AgentOnchain, op: WriteOp, copy: AgentInfo, now: Instant)
    requires a.state != ChainUnchanged && Transact(a, op, now).Some? && SameView(copy, a)
    ensures !Stale(op, Transact(a, op, now).value, copy)
  {
    StaleIsClobbering(a, op, copy, now);
    FreshIsNeverClobbered(op, a, copy);
  }

  // ---------------------------------------------------------------------
  // What the chain does to copies
  // ---------------------------------------------------------------------

  /** Agents stay, and one that changes is stamped later than t. */
  ghost predicate LedgerMoves(c: Ledger, c': Ledger, t: Instant) {
    forall u :: u in c ==> u in c' && (c'[u] == c[u] || (c'[u].uuid == c[u].uuid && t < c'[u].updatedAt))
  }

  lemma FreshSurvives(c: Ledger, c': Ledger, t: Instant, task: Task)
    requires LedgerMoves(c, c', t) && TaskFresh(c, task) && StampedBy(t, task)
    ensures TaskFresh(c', task)
  {
  }

  lemma LedgerAfter(w: World, t: Instant, m: Move)
    requires LedgerOk(w.ledger, t) && Enabled(w, m) && InTime(t, m)
    ensures var a := ConfirmedBy(w, m);
      && Apply(w, m).ledger == (if a.Some? then w.ledger[a.value.uuid := a.value] else w.ledger)
      && (a.Some? ==>
            && |a.value.uuid| > 0 && a.value.state != ChainUnchanged && a.value.updatedAt <= Tick(t, m)
            && (a.value.uuid in w.ledger ==> a.value == w.ledger[a.value.uuid] || t < a.value.updatedAt))
  {
    ConfirmedIsLedger(w, m);
    hide LocalVerdict;
    if m.ConfirmWrite? && m.ok && ChainWrite(w.ledger, m.uuid, m.op, m.now).Some? {
      TransactLaws(w.ledger[m.uuid], m.op, m.now);
    }
  }

  lemma ConfirmMovesLedger(w: World, t: Instant, m: Move)
    requires LedgerOk(w.ledger, t) && Enabled(w, m) && InTime(t, m)
    ensures LedgerMoves(w.ledger, Apply(w, m).ledger, t) && LedgerOk(Apply(w, m).ledger, Tick(t, m))
  {
    hide Apply, Enabled, ConfirmedBy;
    LedgerAfter(w, t, m);
  }

  lemma VerdictStamp(op: WriteOp, copy: AgentInfo, now: Instant)
    requires LocalVerdict(op, copy, now).Applied?
    ensures LocalVerdict(op, copy, now).rec.updatedAt == now && LocalVerdict(op, copy, now).rec.uuid == copy.uuid
  {
    hide LevelText, StateText;
  }

  /** A move leaves the other calls alone. */
  lemma TasksAfter(w: World, m: Move, id: nat)
    requires Enabled(w, m) && id != m.id
    ensures id in Apply(w, m).tasks <==> id in w.tasks
    ensures id in w.tasks ==> Apply(w, m).tasks[id] == w.tasks[id]
  {
    if m.CompareHead? || m.FetchHead? || m.PutHead? || m.BeginPass? {
      TasksAfterPass(w, m, id);
    } else {
      hide LocalVerdict, ChainWrite, ChainRegister, ChainGet, IndexPut, ExtendTrace, Mirrored, View;
      hide ApplyCompareHead, ApplyFetchHead;
    }
  }

  lemma TasksAfterPass(w: World, m: Move, id: nat)
    requires Enabled(w, m) && id != m.id && (m.CompareHead? || m.FetchHead? || m.PutHead? || m.BeginPass?)
    ensures id in Apply(w, m).tasks <==> id in w.tasks
    ensures id in w.tasks ==> Apply(w, m).tasks[id] == w.tasks[id]
  {
    hide ChainGet, IndexPut, Lags;
  }

  /** The moving call holds a fresh copy afterwards, or none. */
  lemma NewTaskFresh(w: World, t: Instant, m: Move)
    requires LedgerOk(w.ledger, t) && Enabled(w, m) && InTime(t, m)
    requires m.id in w.tasks ==> StampedBy(t, w.tasks[m.id])
    ensures var w' := Apply(w, m);
      m.id in w'.tasks ==> TaskFresh(w'.ledger, w'.tasks[m.id]) && StampedBy(Tick(t, m), w'.tasks[m.id])
  {
    match m
    case ConfirmRegister(_, _, _, _) => RegisteredIsFresh(w, t, m);
    case FetchMissing(_, _) => FetchedIsFresh(w, t, m);
    case FetchHead(_, _) => FetchedIsFresh(w, t, m);
    case BeginRegister(_, _, _, _) =>
    case _ => OthersHoldNothing(w, m);
  }

  lemma RegisteredIsFresh(w: World, t: Instant, m: Move)
    requires Enabled(w, m) && m.ConfirmRegister? && InTime(t, m) && StampedBy(t, w.tasks[m.id])
    ensures var w' := Apply(w, m);
      m.id in w'.tasks ==> TaskFresh(w'.ledger, w'.tasks[m.id]) && StampedBy(Tick(t, m), w'.tasks[m.id])
  {
    hide ExtendTrace;
  }

  lemma FetchedIsFresh(w: World, t: Instant, m: Move)
    requires LedgerOk(w.ledger, t) && Enabled(w, m) && (m.FetchMissing? || m.FetchHead?)
    ensures var w' := Apply(w, m); TaskFresh(w'.ledger, w'.tasks[m.id]) && StampedBy(Tick(t, m), w'.tasks[m.id])
  {
    ViewIsFresh(w.ledger, t, if m.FetchMissing? then m.uuid else w.tasks[m.id].rest[0].uuid);
    hide ChainGet, Fresh;
  }

  lemma ViewIsFresh(c: Ledger, t: Instant, u: string)
    requires LedgerOk(c, t)
    ensures ChainGet(c, u).Ok? ==> Fresh(c, ChainGet(c, u).value) && ChainGet(c, u).value.updatedAt <= t
  {
  }

  lemma OthersHoldNothing(w: World, m: Move)
    requires Enabled(w, m) && !m.ConfirmRegister? && !m.FetchMissing? && !m.FetchHead? && !m.BeginRegister?
    ensures var w' := Apply(w, m);
      m.id in w'.tasks ==>
        w'.tasks[m.id].Reading? || w'.tasks[m.id].Writing? || w'.tasks[m.id].Comparing? || w'.tasks[m.id].Fetching?
  {
    hide LocalVerdict, ChainWrite, ChainRegister, ChainGet, IndexPut, ExtendTrace, Lags, Mirrored, View;
  }

  /** Stamps stay behind the clock. */
  lemma MoveKeepsTimed(w: World, t: Instant, m: Move)
    requires Timed(w, t) && Enabled(w, m) && InTime(t, m)
    ensures Timed(Apply(w, m), Tick(t, m))
  {
    hide Apply, LocalVerdict, Enabled;
    var w', t' := Apply(w, m), Tick(t, m);
    ConfirmMovesLedger(w, t, m);
    NewTaskFresh(w, t, m);
    StoreAfter(w, m);
    PutStamp(w, t, m);
    forall id | id in w'.tasks ensures StampedBy(t', w'.tasks[id]) {
      if id != m.id { TasksAfter(w, m, id); }
    }
  }

  lemma PutStamp(w: World, t: Instant, m: Move)
    requires Timed(w, t) && Enabled(w, m)
    ensures PutBy(w, m).Some? ==> PutBy(w, m).value.updatedAt <= Tick(t, m)
  {
    hide LocalVerdict;
    if m.id in w.tasks { assert StampedBy(t, w.tasks[m.id]); }
    if m.PutLocal? && LocalVerdict(w.tasks[m.id].op, w.tasks[m.id].copy, m.now).Applied? {
      VerdictStamp(w.tasks[m.id].op, w.tasks[m.id].copy, m.now);
    }
  }

  /** Held copies stay equal to the chain or older than it, whatever moves. */
  lemma MoveKeepsCopiesFresh(w: World, t: Instant, m: Move)
    requires Timed(w, t) && CopiesFresh(w) && Enabled(w, m) && InTime(t, m)
    ensures CopiesFresh(Apply(w, m))
  {
    hide Apply, Enabled, TaskFresh, StampedBy;
    var w' := Apply(w, m);
    ConfirmMovesLedger(w, t, m);
    NewTaskFresh(w, t, m);
    forall id | id in w'.tasks ensures TaskFresh(w'.ledger, w'.tasks[id]) {
      if id != m.id {
        TasksAfter(w, m, id);
        FreshSurvives(w.ledger, w'.ledger, t, w.tasks[id]);
      }
    }
  }

  // ---------------------------------------------------------------------
  // The exact condition
  // ---------------------------------------------------------------------

  /** A local write is put fresh unless it is stale and stamped no earlier than the chain's version. */
  lemma VerdictFreshIff(a: AgentOnchain, op: WriteOp, copy: AgentInfo, now: Instant)
    requires MirrorsIdentity(copy, a) && a.state != ChainUnchanged
    ensures var v := LocalVerdict(op, copy, now);
      (v.Applied? && !(v.rec.updatedAt < a.updatedAt || SameView(v.rec, a))) <==>
        a.updatedAt <= now && Stale(op, a, copy)
  {
    hide LevelText, StateText;
  }

  /** Of all puts only the stale ones are not fresh. */
  lemma PutFreshIff(w: World, m: Move)
    requires Safe(w) && CopiesFresh(w) && Enabled(w, m)
    ensures PutBy(w, m).Some? ==>
      PutBy(w, m).value.uuid in w.ledger && (Fresh(w.ledger, PutBy(w, m).value) <==> !StalePut(w, m))
    ensures StalePut(w, m) ==> PutBy(w, m).Some? && PutBy(w, m).value.uuid == w.tasks[m.id].uuid
  {
    if m.PutLocal? {
      LocalPutFreshIff(w, m);
    } else if m.id in w.tasks {
      assert TaskFresh(w.ledger, w.tasks[m.id]);
    }
  }

  lemma LocalPutFreshIff(w: World, m: Move)
    requires Safe(w) && Enabled(w, m) && m.PutLocal?
    ensures PutBy(w, m).Some? ==>
      PutBy(w, m).value.uuid in w.ledger && (Fresh(w.ledger, PutBy(w, m).value) <==> !StalePut(w, m))
    ensures StalePut(w, m) ==> PutBy(w, m).Some? && PutBy(w, m).value.uuid == w.tasks[m.id].uuid
  {
    var task := w.tasks[m.id];
    assert TaskOk(w, task);
    var a := w.ledger[task.uuid];
    assert TraceOk(a, w.history[task.uuid]);
    VerdictFreshIff(a, task.op, task.copy, m.now);
    hide LocalVerdict, Stale, Safe;
    if LocalVerdict(task.op, task.copy, m.now).Applied? { VerdictStamp(task.op, task.copy, m.now); }
  }

  ghost predicate AgentSettled(w: World, u: string) {
    u in w.ledger ==> Settled(w.store, w.ledger[u])
  }

  predicate StalePutOf(w: World, m: Move, u: string) {
    StalePut(w, m) && w.tasks[m.id].uuid == u
  }

  /** What settles an agent whatever it was before: the chain changes or adds it, or a record of it is put that is not
      stale. */
  predicate Heals(w: World, m: Move, u: string)
    requires Enabled(w, m)
  {
    var a, r := ConfirmedBy(w, m), PutBy(w, m);
    || (a.Some? && a.value.uuid == u && (u in w.ledger ==> a.value != w.ledger[u]))
    || (r.Some? && r.value.uuid == u && !StalePut(w, m))
  }

  /** One access, whatever it is, whether it fails or not, and whatever the mirror was before: afterwards an agent is
      missing, older or equal in the mirror if and only if the access is no stale put of it, and heals it or found it
      so. */
  lemma AgentSettlesIff(w: World, t: Instant, m: Move, u: string)
    requires Safe(w) && Timed(w, t) && CopiesFresh(w) && Enabled(w, m) && InTime(t, m)
    ensures AgentSettled(Apply(w, m), u) <==> !StalePutOf(w, m, u) && (Heals(w, m, u) || AgentSettled(w, u))
  {
    hide Apply, Enabled, ConfirmedBy, PutBy, StalePut, Safe, Timed, CopiesFresh, InTime, Settled, Fresh;
    StoreAfter(w, m);
    PutFreshIff(w, m);
    OnePartMoves(w, m);
    StoredBehind(w, t, u);
    MovesLedger(w, t, m);
    var a, r := ConfirmedBy(w, m), PutBy(w, m);
    if r.Some? {
      PutSettlesIff(w.ledger, w.store, r.value, u);
    } else if a.Some? {
      ConfirmSettlesIff(w.ledger, w.store, a.value, u, t);
    }
  }

  lemma StoredBehind(w: World, t: Instant, u: string)
    requires Safe(w) && Timed(w, t)
    ensures LedgerKeys(w.ledger) && (u in w.store ==> u in w.ledger && w.store[u].updatedAt <= t)
  {
    if u in w.store { assert Vouched(w, w.store[u]); }
  }

  lemma MovesLedger(w: World, t: Instant, m: Move)
    requires Timed(w, t) && Enabled(w, m) && InTime(t, m)
    ensures var a := ConfirmedBy(w, m);
      && Apply(w, m).ledger == (if a.Some? then w.ledger[a.value.uuid := a.value] else w.ledger)
      && (a.Some? && a.value.uuid in w.ledger ==> a.value == w.ledger[a.value.uuid] || t < a.value.updatedAt)
  {
    LedgerAfter(w, t, m);
  }

  /** A put settles its agent if and only if the record is fresh; it concerns no other agent. */
  lemma PutSettlesIff(c: Ledger, store: Store, r: AgentInfo, u: string)
    requires LedgerKeys(c)
    ensures u in c ==>
      (Settled(store[r.uuid := r], c[u]) <==> if r.uuid == u then Fresh(c, r) else Settled(store, c[u]))
  {
    if u in c { assert c[u].uuid == u; }
  }

  /** The chain settles the agent that it changes or adds. */
  lemma ConfirmSettlesIff(c: Ledger, store: Store, a: AgentOnchain, u: string, t: Instant)
    requires LedgerKeys(c) && (a.uuid in c ==> a == c[a.uuid] || t < a.updatedAt)
    requires u in store ==> u in c && store[u].updatedAt <= t
    ensures u in c[a.uuid := a] ==>
      (Settled(store, c[a.uuid := a][u]) <==>
         (a.uuid == u && (u in c ==> a != c[u])) || (u in c && Settled(store, c[u])))
  {
    if u in c { assert c[u].uuid == u; }
  }

  /** From a settled mirror: an access keeps every agent of the chain missing, older or equal in the mirror if and only
      if it is not a stale put. */
  lemma MoveSettlesIff(w: World, t: Instant, m: Move)
    requires Safe(w) && Timed(w, t) && CopiesFresh(w) && MirrorSettled(w)
    requires Enabled(w, m) && InTime(t, m)
    ensures MirrorSettled(Apply(w, m)) <==> !StalePut(w, m)
  {
    var w' := Apply(w, m);
    forall u ensures AgentSettled(w', u) <==> !StalePutOf(w, m, u) {
      assert AgentSettled(w, u);
      AgentSettlesIff(w, t, m, u);
    }
    if StalePut(w, m) {
      var u := w.tasks[m.id].uuid;
      assert StalePutOf(w, m, u) && !AgentSettled(w', u);
    } else {
      forall u | u in w'.ledger ensures Settled(w'.store, w'.ledger[u]) {
        assert AgentSettled(w', u) <==> !StalePutOf(w, m, u);
      }
    }
  }

  // ---------------------------------------------------------------------
  // Whole schedules
  // ---------------------------------------------------------------------

  ghost predicate TimelySchedule(w: World, t: Instant, moves: seq<Move>)
    requires Schedule(w, moves)
    decreases |moves|
  {
    |moves| > 0 ==> InTime(t, moves[0]) && TimelySchedule(Apply(w, moves[0]), Tick(t, moves[0]), moves[1..])
  }

  /** Some access of the schedule heals the agent. */
  ghost predicate EverHeals(w: World, moves: seq<Move>, u: string)
    requires Schedule(w, moves)
    decreases |moves|
  {
    |moves| > 0 && (Heals(w, moves[0], u) || EverHeals(Apply(w, moves[0]), moves[1..], u))
  }

  /** Some access of the schedule is a stale put of the agent that no later access heals. */
  ghost predicate StaysStale(w: World, moves: seq<Move>, u: string)
    requires Schedule(w, moves)
    decreases |moves|
  {
    |moves| > 0 &&
    (|| (StalePutOf(w, moves[0], u) && !EverHeals(Apply(w, moves[0]), moves[1..], u))
     || StaysStale(Apply(w, moves[0]), moves[1..], u))
  }

  lemma {:induction false} ScheduleSettlesIff(w: World, t: Instant, moves: seq<Move>, u: string)
    requires Safe(w) && Timed(w, t) && CopiesFresh(w)
    requires Schedule(w, moves) && TimelySchedule(w, t, moves)
    ensures Safe(After(w, moves))
    ensures AgentSettled(After(w, moves), u) <==>
              !StaysStale(w, moves, u) && (EverHeals(w, moves, u) || AgentSettled(w, u))
    decreases |moves|
  {
    hide Safe, Timed, CopiesFresh, Enabled, Apply, StalePutOf, Heals, AgentSettled;
    if |moves| > 0 {
      var m := moves[0];
      MoveKeepsSafe(w, m);
      MoveKeepsTimed(w, t, m);
      MoveKeepsCopiesFresh(w, t, m);
      AgentSettlesIff(w, t, m, u);
      ScheduleSettlesIff(Apply(w, m), Tick(t, m), moves[1..], u);
    }
  }

  /** After a clean pass the mirror holds exactly the chain's agents, and one equals what the chain shows if and only if
      it was settled. */
  lemma CleanPassEqualises(w: World)
    requires ChainOk(w) && StoreOk(w)
    ensures var s := Synced(w.ledger, w.store, {});
      && s.Keys == w.ledger.Keys
      && (forall u :: u in w.ledger ==> (SameView(s[u], w.ledger[u]) <==> AgentSettled(w, u)))
  {
    var s := Synced(w.ledger, w.store, {});
    forall u ensures u in s <==> u in w.ledger
             ensures u in w.ledger ==> (SameView(s[u], w.ledger[u]) <==> Settled(w.store, w.ledger[u]))
    {
      SyncOverwritesExactly(w.ledger, w.store, {}, u);
      if u in w.store { assert Vouched(w, w.store[u]); }
      if u in w.ledger { assert w.ledger[u].uuid == u; }
    }
  }

  /** Convergence of interleaved runs, exactly: calls and passes in any interleaving, with any access failing, and then
      one clean pass. The mirror then holds exactly the chain's agents, and one of them equals the chain on owner,
      level, state, permission, key and hash if and only if the run has no stale put of it that nothing later heals. */
  lemma InterleavedConvergenceIff(t: Instant, moves: seq<Move>)
    requires Schedule(START, moves) && TimelySchedule(START, t, moves)
    ensures var w := After(START, moves);
      var s := Synced(w.ledger, w.store, {});
      && s.Keys == w.ledger.Keys
      && (forall u :: u in w.ledger ==> (SameView(s[u], w.ledger[u]) <==> !StaysStale(START, moves, u)))
  {
    var w := After(START, moves);
    ScheduleSettlesIff(START, t, moves, "");
    CleanPassEqualises(w);
    forall u | u in w.ledger ensures AgentSettled(w, u) <==> !StaysStale(START, moves, u) {
      ScheduleSettlesIff(START, t, moves, u);
    }
  }

  ghost predicate NeverStale(w: World, moves: seq<Move>)
    requires Schedule(w, moves)
    decreases |moves|
  {
    |moves| > 0 ==> !StalePut(w, moves[0]) && NeverStale(Apply(w, moves[0]), moves[1..])
  }

  lemma {:induction false} NeverStaleNeverStays(w: World, moves: seq<Move>, u: string)
    requires Schedule(w, moves) && NeverStale(w, moves)
    ensures !StaysStale(w, moves, u)
    decreases |moves|
  {
    hide Enabled, Apply, StalePut;
    if |moves| > 0 { NeverStaleNeverStays(Apply(w, moves[0]), moves[1..], u); }
  }

  /** In particular runs without a stale put converge. */
  lemma InterleavedConvergence(t: Instant, moves: seq<Move>)
    requires Schedule(START, moves) && TimelySchedule(START, t, moves) && NeverStale(START, moves)
    ensures var w := After(START, moves);
      var s := Synced(w.ledger, w.store, {});
      s.Keys == w.ledger.Keys && forall u :: u in w.ledger ==> SameView(s[u], w.ledger[u])
  {
    InterleavedConvergenceIff(t, moves);
    forall u ensures !StaysStale(START, moves, u) { NeverStaleNeverStays(START, moves, u); }
  }

  // ---------------------------------------------------------------------
  // Nothing fails, and yet a put is stale
  // ---------------------------------------------------------------------

  const REQ := RegisterRequest("alice", 1, 0, "pk")
  const AGENT_1 := Confirmed("u", REQ, "tx", 2)
  const AGENT_2 := AGENT_1.(state := ChainBanned, level := 2, updatedAt := 4)
  const MIRROR_1 := Mirrored("u", REQ, "tx", 1)
  const LOST := MIRROR_1.(state := Banned, updatedAt := 5)

  /** Registered and mirrored. */
  const PART_1: seq<Move> :=
    [BeginRegister(0, "u", REQ, 1), ConfirmRegister(0, "tx", 2, true), PutMirror(0, true)]

  /** Call 1 bans on the chain and reads the mirror; call 2 upgrades on the chain. */
  const PART_2: seq<Move> :=
    [ConfirmWrite(1, "u", Ban("fraud"), 3, true), ReadLocal(1, true), ConfirmWrite(2, "u", Upgrade(2, ""), 4, true)]

  /** The syncer, which does not take the mutex, lists the chain, finds the mirror lagging and fetches. */
  const PART_3: seq<Move> := [BeginPass(3, [AGENT_2]), CompareHead(3, true), FetchHead(3, true)]

  /** The syncer puts: the mirror is right. Call 1 puts its copy back, then call 2 has its turn with the mutex */
  const PART_4: seq<Move> := [PutHead(3, true), PutLocal(1, 5, true), ReadLocal(2, true)]

  /** and is refused. */
  const PART_5: seq<Move> := [PutLocal(2, 6, true)]

  /** Run on two pieces is run on their concatenation. */
  lemma {:induction false} SchedulesCompose(w: World, s: seq<Move>, t: seq<Move>)
    requires Schedule(w, s) && Schedule(After(w, s), t)
    ensures Schedule(w, s + t) && After(w, s + t) == After(After(w, s), t)
    decreases |s|
  {
    if |s| == 0 {
      assert s + t == t;
    } else {
      assert (s + t)[0] == s[0] && (s + t)[1..] == s[1..] + t;
      SchedulesCompose(Apply(w, s[0]), s[1..], t);
    }
  }

  lemma ThreeMoves(w: World, a: Move, b: Move, c: Move, w1: World, w2: World, w3: World)
    requires Enabled(w, a) && Apply(w, a) == w1 && Enabled(w1, b) && Apply(w1, b) == w2
    requires Enabled(w2, c) && Apply(w2, c) == w3
    ensures Schedule(w, [a, b, c]) && After(w, [a, b, c]) == w3
  {
    assert [a, b, c][1..] == [b, c] && [b, c][1..] == [c] && [c][1..] == [];
    assert Schedule(w3, []) && After(w3, []) == w3;
    assert Schedule(w2, [c]) && After(w2, [c]) == w3;
    assert Schedule(w1, [b, c]) && After(w1, [b, c]) == w3;
  }

  lemma Part1Runs()
    ensures Schedule(START, PART_1)
    ensures var w := After(START, PART_1);
      w.ledger == map["u" := AGENT_1] && w.store == map["u" := MIRROR_1] && w.tasks == map[]
  {
    var w1 := Apply(START, PART_1[0]);
    assert w1.tasks == map[0 := Confirming("u", REQ, 1)] && w1.ledger == map[] && w1.store == map[];
    var w2 := Apply(w1, PART_1[1]);
    assert w2.tasks == map[0 := Mirroring(MIRROR_1)] && w2.ledger == map["u" := AGENT_1] && w2.store == map[];
    var w3 := Apply(w2, PART_1[2]);
    assert w3.tasks == map[] && w3.store == map["u" := MIRROR_1];
    ThreeMoves(START, PART_1[0], PART_1[1], PART_1[2], w1, w2, w3);
  }

  lemma Part2Runs(w: World)
    requires w.ledger == map["u" := AGENT_1] && w.store == map["u" := MIRROR_1] && w.tasks == map[]
    ensures Schedule(w, PART_2)
    ensures var w' := After(w, PART_2);
      && w'.ledger == map["u" := AGENT_2] && w'.store == map["u" := MIRROR_1]
      && w'.tasks == map[1 := Writing("u", Ban("fraud"), MIRROR_1), 2 := Reading("u", Upgrade(2, ""))]
  {
    var w1 := Apply(w, PART_2[0]);
    assert w1.ledger == map["u" := AGENT_1.(state := ChainBanned, updatedAt := 3)];
    assert w1.tasks == map[1 := Reading("u", Ban("fraud"))] && w1.store == map["u" := MIRROR_1];
    var w2 := Apply(w1, PART_2[1]);
    assert w2.tasks == map[1 := Writing("u", Ban("fraud"), MIRROR_1)];
    var w3 := Apply(w2, PART_2[2]);
    assert w3.ledger == map["u" := AGENT_2];
    ThreeMoves(w, PART_2[0], PART_2[1], PART_2[2], w1, w2, w3);
  }

  /** The three accesses of the pass that call 3 makes; the other calls do not matter. */
  lemma PassSteps(w: World)
    requires 3 !in w.tasks && w.ledger == map["u" := AGENT_2] && w.store == map["u" := MIRROR_1]
    ensures Enabled(w, PART_3[0]) && Apply(w, PART_3[0]) == w.(tasks := w.tasks[3 := Comparing([AGENT_2])])
    ensures var v := w.(tasks := w.tasks[3 := Comparing([AGENT_2])]);
      Enabled(v, PART_3[1]) && Apply(v, PART_3[1]) == w.(tasks := w.tasks[3 := Fetching([AGENT_2])])
    ensures var v := w.(tasks := w.tasks[3 := Fetching([AGENT_2])]);
      && Enabled(v, PART_3[2])
      && Apply(v, PART_3[2]) == w.(tasks := w.tasks[3 := Repairing([AGENT_2], View(AGENT_2))])
  {
    UpdatedTwice(w.tasks, 3, Comparing([AGENT_2]), Fetching([AGENT_2]));
    UpdatedTwice(w.tasks, 3, Fetching([AGENT_2]), Repairing([AGENT_2], View(AGENT_2)));
  }

  lemma UpdatedTwice(tasks: map<nat, Task>, id: nat, a: Task, b: Task)
    ensures tasks[id := a][id := b] == tasks[id := b]
  {
  }

  lemma Part3Runs(w: World)
    requires w.ledger == map["u" := AGENT_2] && w.store == map["u" := MIRROR_1]
    requires w.tasks == map[1 := Writing("u", Ban("fraud"), MIRROR_1), 2 := Reading("u", Upgrade(2, ""))]
    ensures Schedule(w, PART_3)
    ensures After(w, PART_3) == w.(tasks := w.tasks[3 := Repairing([AGENT_2], View(AGENT_2))])
  {
    hide Apply, Enabled;
    var w1 := w.(tasks := w.tasks[3 := Comparing([AGENT_2])]);
    var w2 := w.(tasks := w.tasks[3 := Fetching([AGENT_2])]);
    var w3 := w.(tasks := w.tasks[3 := Repairing([AGENT_2], View(AGENT_2))]);
    PassSteps(w);
    ThreeMoves(w, PART_3[0], PART_3[1], PART_3[2], w1, w2, w3);
  }

  lemma PutHeadStep(w: World)
    requires 3 in w.tasks && w.tasks[3] == Repairing([AGENT_2], View(AGENT_2))
    ensures Enabled(w, PutHead(3, true))
    ensures Apply(w, PutHead(3, true)) ==
            w.(store := w.store["u" := View(AGENT_2)], index := IndexPut(w.index, "alice", "u"),
               tasks := w.tasks[3 := Comparing([])])
  {
    assert [AGENT_2][1..] == [];
  }

  /** The stale put. */
  lemma PutLocalStep(w: World)
    requires 1 in w.tasks && w.tasks[1] == Writing("u", Ban("fraud"), MIRROR_1)
    ensures Enabled(w, PutLocal(1, 5, true))
    ensures Apply(w, PutLocal(1, 5, true)) ==
            w.(store := w.store["u" := LOST], index := IndexPut(w.index, "alice", "u"), tasks := w.tasks - {1})
    ensures "u" in w.ledger && w.ledger["u"] == AGENT_2 ==> StalePut(w, PutLocal(1, 5, true))
  {
  }

  lemma ReadLocalStep(w: World)
    requires 2 in w.tasks && w.tasks[2] == Reading("u", Upgrade(2, ""))
    requires "u" in w.store && w.store["u"] == LOST
    ensures Enabled(w, ReadLocal(2, true))
    ensures Apply(w, ReadLocal(2, true)) == w.(tasks := w.tasks[2 := Writing("u", Upgrade(2, ""), LOST)])
  {
  }

  lemma Part4Runs(w: World)
    requires w.tasks == map[1 := Writing("u", Ban("fraud"), MIRROR_1), 2 := Reading("u", Upgrade(2, "")),
                            3 := Repairing([AGENT_2], View(AGENT_2))]
    ensures Schedule(w, PART_4)
    ensures var w' := After(w, PART_4);
      && w'.ledger == w.ledger && w'.store == w.store["u" := LOST]
      && w'.tasks == map[2 := Writing("u", Upgrade(2, ""), LOST), 3 := Comparing([])]
  {
    hide Apply, Enabled;
    PutHeadStep(w);
    var w1 := Apply(w, PutHead(3, true));
    PutLocalStep(w1);
    var w2 := Apply(w1, PutLocal(1, 5, true));
    ReadLocalStep(w2);
    var w3 := Apply(w2, ReadLocal(2, true));
    TurnsTaken(w.tasks[1], w.tasks[2], w.tasks[3], Comparing([]), Writing("u", Upgrade(2, ""), LOST));
    assert w3.store == w.store["u" := LOST];
    ThreeMoves(w, PART_4[0], PART_4[1], PART_4[2], w1, w2, w3);
  }

  lemma TurnsTaken(t1: Task, t2: Task, t3: Task, a: Task, b: Task)
    ensures (map[1 := t1, 2 := t2, 3 := t3][3 := a] - {1})[2 := b] == map[2 := b, 3 := a]
  {
  }

  /** An upgrade of a banned record is refused, so the last access only ends the call. */
  lemma Part5Runs(w: World)
    requires 2 in w.tasks && w.tasks[2] == Writing("u", Upgrade(2, ""), LOST)
    ensures Schedule(w, PART_5) && After(w, PART_5) == Finish(w, 2)
  {
    assert Apply(w, PART_5[0]) == Finish(w, 2);
    assert PART_5[1..] == [];
    assert Schedule(Finish(w, 2), []) && After(Finish(w, 2), []) == Finish(w, 2);
  }

  lemma FivePieces(w: World, a: seq<Move>, b: seq<Move>, c: seq<Move>, d: seq<Move>, e: seq<Move>,
                   wa: World, wb: World, wc: World, wd: World, we: World)
    requires Schedule(w, a) && After(w, a) == wa && Schedule(wa, b) && After(wa, b) == wb
    requires Schedule(wb, c) && After(wb, c) == wc && Schedule(wc, d) && After(wc, d) == wd
    requires Schedule(wd, e) && After(wd, e) == we
    ensures Schedule(w, a + b + c + d + e) && After(w, a + b + c + d + e) == we
  {
    SchedulesCompose(w, a, b);
    SchedulesCompose(w, a + b, c);
    SchedulesCompose(w, a + b + c, d);
    SchedulesCompose(w, a + b + c + d, e);
  }

  lemma WrongButNewer(failing: set<string>)
    ensures Synced(map["u" := AGENT_2], map["u" := LOST], failing) == map["u" := LOST]
  {
    assert Repairs(map["u" := AGENT_2], map["u" := LOST], failing) == map[];
  }

  /** No access fails and the mutex is respected, yet a pass that runs between a ban's local read and its local
      write is undone: the mirror ends banned at level 1 with a stamp newer than the chain's, the chain banned at
      level 2, and no later pass repairs it. */
  lemma ConcurrentRepairIsLost(failing: set<string>)
    ensures var moves := PART_1 + PART_2 + PART_3 + PART_4 + PART_5;
      && Schedule(START, moves)
      && var w := After(START, moves);
         && w.ledger == map["u" := AGENT_2]
         && w.tasks == map[3 := Comparing([])]
         && Synced(w.ledger, w.store, failing) == map["u" := LOST]
  {
    hide Schedule, After, Synced;
    Part1Runs();
    var w1 := After(START, PART_1);
    Part2Runs(w1);
    var w2 := After(w1, PART_2);
    Part3Runs(w2);
    var w3 := After(w2, PART_3);
    Part4Runs(w3);
    var w4 := After(w3, PART_4);
    Part5Runs(w4);
    FivePieces(START, PART_1, PART_2, PART_3, PART_4, PART_5, w1, w2, w3, w4, Finish(w4, 2));
    assert w4.store == map["u" := LOST];
    WrongButNewer(failing);
  }

  // ---------------------------------------------------------------------
  // A stale put that is healed
  // ---------------------------------------------------------------------

  /** Two writes are confirmed one after the other, and their local halves follow in the same order. */
  const IN_ORDER_1: seq<Move> :=
    [ConfirmWrite(1, "u", Upgrade(2, ""), 3, true), ConfirmWrite(2, "u", Ban("fraud"), 4, true), ReadLocal(1, true)]
  const IN_ORDER_2: seq<Move> := [PutLocal(1, 5, true), ReadLocal(2, true), PutLocal(2, 6, true)]

  const RAISED := MIRROR_1.(level := 2, updatedAt := 5)

  lemma InOrder1Runs(w: World)
    requires w.ledger == map["u" := AGENT_1] && w.store == map["u" := MIRROR_1] && w.tasks == map[]
    ensures Schedule(w, IN_ORDER_1)
    ensures var w' := After(w, IN_ORDER_1);
      && w'.ledger == map["u" := AGENT_2] && w'.store == map["u" := MIRROR_1]
      && w'.tasks == map[1 := Writing("u", Upgrade(2, ""), MIRROR_1), 2 := Reading("u", Ban("fraud"))]
  {
    var w1 := Apply(w, IN_ORDER_1[0]);
    assert w1.ledger == map["u" := AGENT_1.(level := 2, updatedAt := 3)];
    assert w1.tasks == map[1 := Reading("u", Upgrade(2, ""))] && w1.store == map["u" := MIRROR_1];
    var w2 := Apply(w1, IN_ORDER_1[1]);
    assert w2.ledger == map["u" := AGENT_2];
    assert w2.tasks == map[1 := Reading("u", Upgrade(2, "")), 2 := Reading("u", Ban("fraud"))];
    var w3 := Apply(w2, IN_ORDER_1[2]);
    ThreeMoves(w, IN_ORDER_1[0], IN_ORDER_1[1], IN_ORDER_1[2], w1, w2, w3);
  }

  lemma InOrder2Runs(w: World)
    requires w.ledger == map["u" := AGENT_2] && w.store == map["u" := MIRROR_1]
    requires w.tasks == map[1 := Writing("u", Upgrade(2, ""), MIRROR_1), 2 := Reading("u", Ban("fraud"))]
    ensures Schedule(w, IN_ORDER_2) && StalePut(w, IN_ORDER_2[0])
    ensures var w' := After(w, IN_ORDER_2);
      && w'.ledger == w.ledger && w'.tasks == map[]
      && w'.store == map["u" := RAISED.(state := Banned, updatedAt := 6)]
  {
    var w1 := FirstHalfPut(w);
    var w2, w3 := SecondHalfPut(w1);
    hide Apply, Enabled;
    ThreeMoves(w, IN_ORDER_2[0], IN_ORDER_2[1], IN_ORDER_2[2], w1, w2, w3);
  }

  lemma FirstHalfPut(w: World) returns (w1: World)
    requires w.ledger == map["u" := AGENT_2] && w.store == map["u" := MIRROR_1]
    requires w.tasks == map[1 := Writing("u", Upgrade(2, ""), MIRROR_1), 2 := Reading("u", Ban("fraud"))]
    ensures Enabled(w, IN_ORDER_2[0]) && w1 == Apply(w, IN_ORDER_2[0]) && StalePut(w, IN_ORDER_2[0])
    ensures w1.ledger == w.ledger && w1.store == map["u" := RAISED] && w1.tasks == map[2 := Reading("u", Ban("fraud"))]
  {
    w1 := Apply(w, IN_ORDER_2[0]);
  }

  lemma SecondHalfPut(w1: World) returns (w2: World, w3: World)
    requires w1.store == map["u" := RAISED] && w1.tasks == map[2 := Reading("u", Ban("fraud"))]
    ensures Enabled(w1, IN_ORDER_2[1]) && w2 == Apply(w1, IN_ORDER_2[1])
    ensures Enabled(w2, IN_ORDER_2[2]) && w3 == Apply(w2, IN_ORDER_2[2])
    ensures w3.ledger == w1.ledger && w3.tasks == map[]
    ensures w3.store == map["u" := RAISED.(state := Banned, updatedAt := 6)]
  {
    w2 := Apply(w1, IN_ORDER_2[1]);
    assert w2.tasks == map[2 := Writing("u", Ban("fraud"), RAISED)];
    w3 := Apply(w2, IN_ORDER_2[2]);
  }

  /** Nothing fails and the local halves keep the chain's order. The first put is stale, since the chain is already
      banned, but the second heals it, and the mirror ends equal to the chain. */
  lemma StalePutIsHealed()
    ensures Schedule(START, PART_1 + IN_ORDER_1) && Schedule(START, PART_1 + IN_ORDER_1 + IN_ORDER_2)
    ensures StalePut(After(START, PART_1 + IN_ORDER_1), IN_ORDER_2[0])
    ensures var w := After(START, PART_1 + IN_ORDER_1 + IN_ORDER_2);
      w.ledger == map["u" := AGENT_2] && w.store.Keys == {"u"} && SameView(w.store["u"], AGENT_2) && w.tasks == map[]
  {
    hide Schedule, After, StalePut;
    Part1Runs();
    var w1 := After(START, PART_1);
    InOrder1Runs(w1);
    var w2 := After(w1, IN_ORDER_1);
    InOrder2Runs(w2);
    SchedulesCompose(START, PART_1, IN_ORDER_1);
    SchedulesCompose(START, PART_1 + IN_ORDER_1, IN_ORDER_2);
  }
}
