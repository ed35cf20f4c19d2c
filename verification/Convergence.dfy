/** When does the mirror converge? Calls of the hybrid backend one at a time, on one strictly increasing clock,
    with any local write failing. The answer is exact, write by write: see ClobbersExactly. */
module Convergence {
  import opened Prelude
  import opened Records
  import opened MemoryPersistence
  import opened LocalBackend
  import opened Onchain
  import opened Hybrid

  datatype Replica = Replica(ledger: Ledger, store: Store, clock: Instant)

  /** The mirrored record shows what the chain shows; stamps aside. */
  predicate SameView(r: AgentInfo, a: AgentOnchain) {
    r.(registeredAt := a.updatedAt, updatedAt := a.updatedAt) == View(a)
  }

  /** Field by field. */
  lemma SameViewMeans(r: AgentInfo, a: AgentOnchain)
    ensures SameView(r, a) <==>
      && r.uuid == a.uuid && r.owner == a.owner && r.level == a.level && r.permission == a.permission
      && r.publicKey == a.publicKey && r.txHash == a.txHash
      && r.state == match a.state
                    case ChainActive => Active
                    case ChainBanned => Banned
                    case ChainRevoked => Unregistered
                    case ChainUnchanged => Registered
  {
  }

  /** Missing, older than the chain, or equal to it: what a pass can repair or need not. */
  predicate Settled(store: Store, a: AgentOnchain) {
    Lags(store, a) || SameView(store[a.uuid], a)
  }

  ghost predicate AllSettled(s: Replica) {
    forall u :: u in s.ledger ==> Settled(s.store, s.ledger[u])
  }

  predicate MirrorsIdentity(r: AgentInfo, a: AgentOnchain) {
    && r.uuid == a.uuid && r.owner == a.owner && r.permission == a.permission
    && r.publicKey == a.publicKey && r.txHash == a.txHash
  }

  ghost predicate ReplicaOk(s: Replica) {
    && LedgerOk(s.ledger, s.clock)
    && (forall u :: u in s.store ==>
          u in s.ledger && MirrorsIdentity(s.store[u], s.ledger[u]) && s.store[u].updatedAt <= s.clock)
  }

  // ---------------------------------------------------------------------
  // Steps
  // ---------------------------------------------------------------------

  datatype Event =
    | RegisterEvent(uid: string, req: RegisterRequest, txHash: string, now: Instant, confirmedAt: Instant,
                    up: bool, storeOk: bool)
    | WriteEvent(uuid: string, op: WriteOp, confirmedAt: Instant, now: Instant, up: bool, storeOk: bool)
    | ReadEvent(uuid: string, readOk: bool, putOk: bool, up: bool)
    | BatchEvent(uuids: seq<string>, readOk: bool, dark: set<string>, unsaved: set<string>)
    | PassEvent(failing: set<string>)

  function StoreWrite(store: Store, u: string, op: WriteOp, now: Instant): Store {
    if u in store && LocalVerdict(op, store[u], now).Applied? then store[u := LocalVerdict(op, store[u], now).rec]
    else store
  }

  function Mirrored(uid: string, req: RegisterRequest, txHash: string, now: Instant): AgentInfo {
    AgentInfo(uid, req.owner, req.level, Active, req.permission, req.publicKey, txHash, now, now)
  }

  function Step(s: Replica, e: Event): Replica {
    match e
    case RegisterEvent(uid, req, txHash, now, confirmedAt, up, storeOk) =>
      var c := ChainRegister(s.ledger, uid, req, txHash, confirmedAt);
      if !up || c.None? then s.(clock := confirmedAt)
      else Replica(c.value,
                   if storeOk then s.store[uid := Mirrored(uid, req, txHash, now)] else s.store,
                   confirmedAt)
    case WriteEvent(u, op, confirmedAt, now, up, storeOk) =>
      var c := ChainWrite(s.ledger, u, op, confirmedAt);
      if !up || c.None? then s.(clock := now)
      else Replica(c.value, if storeOk then StoreWrite(s.store, u, op, now) else s.store, now)
    case ReadEvent(u, readOk, putOk, up) =>
      s.(store := s.store + FaultyGet(s.ledger, s.store, u, readOk, putOk, up).puts)
    case BatchEvent(uuids, readOk, dark, unsaved) =>
      if readOk then s.(store := HybridBatch(s.ledger, s.store, uuids, dark, unsaved).store) else s
    case PassEvent(failing) => s.(store := Synced(s.ledger, s.store, failing))
  }

  /** The clock moves forward within a call: a registration is stamped before the chain confirms it, a local
      write after. */
  predicate Timely(s: Replica, e: Event) {
    match e
    case RegisterEvent(_, _, _, now, confirmedAt, _, _) => s.clock < now < confirmedAt
    case WriteEvent(_, _, confirmedAt, now, _, _) => s.clock < confirmedAt < now
    case _ => true
  }

  function Run(s: Replica, events: seq<Event>): Replica
    decreases |events|
  {
    if |events| == 0 then s else Run(Step(s, events[0]), events[1..])
  }

  // ---------------------------------------------------------------------
  // The exact condition
  // ---------------------------------------------------------------------

  /** The local write goes through and leaves a wrong record with a fresh stamp: the guard of the local branch
      that writes, and a disagreement in the field that the write does not set. */
  predicate Clobbers(op: WriteOp, a: AgentOnchain, r: AgentInfo) {
    match op
    case Upgrade(n, _) =>
      r.state != Banned && r.state != Unregistered && n > r.level && r.state != MapChainState(a.state)
    case Ban(_) => r.state != Banned && r.state != Unregistered && r.level != a.level
    case Unban => r.state == Banned && (r.level != a.level || a.state == ChainRevoked)
    case Unregister => r.state != Unregistered && r.level != a.level
  }

  predicate ClobberingEvent(s: Replica, e: Event) {
    && e.WriteEvent? && e.up && e.storeOk
    && ChainWrite(s.ledger, e.uuid, e.op, e.confirmedAt).Some?
    && e.uuid in s.store && Clobbers(e.op, s.ledger[e.uuid], s.store[e.uuid])
  }

  /** A record that agrees with the chain is never clobbered. */
  lemma FreshIsNeverClobbered(op: WriteOp, a: AgentOnchain, r: AgentInfo)
    requires SameView(r, a)
    ensures !Clobbers(op, a, r)
  {
  }

  /** One agent, one accepted write, the local half going through, whatever the mirror was before: the agent is settled
      afterwards if and only if the write does not clobber the record, and changes the agent on the chain, or writes
      locally, or found the agent settled. */
  lemma OneWriteIff(a: AgentOnchain, r: AgentInfo, op: WriteOp, clock: Instant, confirmedAt: Instant, now: Instant)
    requires MirrorsIdentity(r, a) && a.state != ChainUnchanged
    requires r.updatedAt <= clock && a.updatedAt <= clock < confirmedAt < now
    requires Transact(a, op, confirmedAt).Some?
    ensures
      var a' := Transact(a, op, confirmedAt).value;
      var v := LocalVerdict(op, r, now);
      var r' := if v.Applied? then v.rec else r;
      (r'.updatedAt < a'.updatedAt || SameView(r', a')) <==>
        !Clobbers(op, a, r) && (a' != a || v.Applied? || r.updatedAt < a.updatedAt || SameView(r, a))
  {
    hide LevelText, StateText;
  }

  /** A settled agent stays settled if and only if the write does not clobber the mirrored record. */
  lemma OneWrite(a: AgentOnchain, r: AgentInfo, op: WriteOp, clock: Instant, confirmedAt: Instant, now: Instant)
    requires MirrorsIdentity(r, a) && a.state != ChainUnchanged
    requires r.updatedAt <= clock && a.updatedAt <= clock < confirmedAt < now
    requires r.updatedAt < a.updatedAt || SameView(r, a)
    requires Transact(a, op, confirmedAt).Some?
    ensures
      var a' := Transact(a, op, confirmedAt).value;
      var v := LocalVerdict(op, r, now);
      var r' := if v.Applied? then v.rec else r;
      (r'.updatedAt < a'.updatedAt || SameView(r', a')) <==> !Clobbers(op, a, r)
  {
    hide LocalVerdict, Clobbers;
    OneWriteIff(a, r, op, clock, confirmedAt, now);
  }

  ghost predicate SettledAt(s: Replica, u: string) {
    u in s.ledger ==> Settled(s.store, s.ledger[u])
  }

  predicate ClobbersAgent(s: Replica, e: Event, u: string) {
    ClobberingEvent(s, e) && e.uuid == u
  }

  /** What settles an agent whatever it was before, unless it clobbers it: a registration, a write that the chain
      restamps or whose local half writes, and a read that puts the chain's view. */
  predicate HealingEvent(s: Replica, e: Event, u: string) {
    match e
    case RegisterEvent(uid, req, txHash, _, confirmedAt, up, _) =>
      uid == u && up && ChainRegister(s.ledger, uid, req, txHash, confirmedAt).Some?
    case WriteEvent(v, op, confirmedAt, now, up, storeOk) =>
      && v == u && up && ChainWrite(s.ledger, u, op, confirmedAt).Some?
      && (|| Transact(s.ledger[u], op, confirmedAt) != Some(s.ledger[u])
          || (storeOk && u in s.store && LocalVerdict(op, s.store[u], now).Applied?))
    case ReadEvent(v, readOk, putOk, up) => u in FaultyGet(s.ledger, s.store, v, readOk, putOk, up).puts
    case BatchEvent(_, _, _, _) => false
    case PassEvent(_) => false
  }

  /** One call, whatever it is, whatever fails, and whatever the mirror was before: afterwards an agent is settled if
      and only if the call does not clobber it, and heals it or found it settled. */
  lemma SettledIff(s: Replica, e: Event, u: string)
    requires ReplicaOk(s) && Timely(s, e)
    ensures SettledAt(Step(s, e), u) <==> !ClobbersAgent(s, e, u) && (HealingEvent(s, e, u) || SettledAt(s, u))
  {
    if e.WriteEvent? {
      WriteSettlesIff(s, e, u);
    } else {
      OthersSettleIff(s, e, u);
    }
  }

  lemma WriteSettlesIff(s: Replica, e: Event, u: string)
    requires ReplicaOk(s) && Timely(s, e) && e.WriteEvent?
    ensures SettledAt(Step(s, e), u) <==> !ClobbersAgent(s, e, u) && (HealingEvent(s, e, u) || SettledAt(s, u))
  {
    hide LocalVerdict, Clobbers, SameView;
    if e.up && ChainWrite(s.ledger, e.uuid, e.op, e.confirmedAt).Some? {
      var a := s.ledger[e.uuid];
      assert a.uuid == e.uuid;
      TransactLaws(a, e.op, e.confirmedAt);
      if e.uuid in s.store { OneWriteIff(a, s.store[e.uuid], e.op, s.clock, e.confirmedAt, e.now); }
      if u in s.ledger { assert s.ledger[u].uuid == u; }
    }
  }

  lemma OthersSettleIff(s: Replica, e: Event, u: string)
    requires ReplicaOk(s) && Timely(s, e) && !e.WriteEvent?
    ensures SettledAt(Step(s, e), u) <==> HealingEvent(s, e, u) || SettledAt(s, u)
  {
    if u in s.ledger { assert s.ledger[u].uuid == u; }
    if e.PassEvent? { SyncOverwritesExactly(s.ledger, s.store, e.failing, u); }
  }

  /** From a settled system: a call leaves it settled if and only if it is not a clobbering write. */
  lemma ClobbersExactly(s: Replica, e: Event)
    requires ReplicaOk(s) && AllSettled(s) && Timely(s, e)
    ensures AllSettled(Step(s, e)) <==> !ClobberingEvent(s, e)
  {
    hide Clobbers, LocalVerdict, Settled, HealingEvent;
    var s' := Step(s, e);
    forall u ensures SettledAt(s', u) <==> !ClobbersAgent(s, e, u) {
      assert SettledAt(s, u);
      SettledIff(s, e, u);
    }
    if ClobberingEvent(s, e) {
      assert ClobbersAgent(s, e, e.uuid) && !SettledAt(s', e.uuid);
    } else {
      forall u | u in s'.ledger ensures Settled(s'.store, s'.ledger[u]) { assert SettledAt(s', u); }
    }
  }

  lemma VerdictKeepsIdentity(op: WriteOp, r: AgentInfo, a: AgentOnchain, now: Instant)
    requires MirrorsIdentity(r, a) && LocalVerdict(op, r, now).Applied?
    ensures MirrorsIdentity(LocalVerdict(op, r, now).rec, a) && LocalVerdict(op, r, now).rec.updatedAt == now
  {
  }

  lemma WriteKeepsReplica(s: Replica, e: Event)
    requires ReplicaOk(s) && Timely(s, e) && e.WriteEvent?
    ensures ReplicaOk(Step(s, e))
  {
    var s' := Step(s, e);
    var c := ChainWrite(s.ledger, e.uuid, e.op, e.confirmedAt);
    if e.up && c.Some? {
      ChainWriteKeepsLedger(s.ledger, s.clock, e.uuid, e.op, e.confirmedAt);
      TransactLaws(s.ledger[e.uuid], e.op, e.confirmedAt);
      forall u | u in s'.store
        ensures u in s'.ledger && MirrorsIdentity(s'.store[u], s'.ledger[u]) && s'.store[u].updatedAt <= s'.clock
      {
        if u == e.uuid && LocalVerdict(e.op, s.store[u], e.now).Applied? {
          VerdictKeepsIdentity(e.op, s.store[u], s.ledger[u], e.now);
        }
      }
    }
  }

  lemma RegisterKeepsReplica(s: Replica, e: Event)
    requires ReplicaOk(s) && Timely(s, e) && e.RegisterEvent?
    ensures ReplicaOk(Step(s, e))
  {
  }

  lemma StepKeepsReplica(s: Replica, e: Event)
    requires ReplicaOk(s) && Timely(s, e)
    ensures ReplicaOk(Step(s, e))
  {
    if e.WriteEvent? {
      WriteKeepsReplica(s, e);
    } else if e.RegisterEvent? {
      RegisterKeepsReplica(s, e);
    } else {
      var t := Step(s, e).store;
      forall u | u in t
        ensures u in s.ledger && MirrorsIdentity(t[u], s.ledger[u]) && t[u].updatedAt <= s.clock
      {
        if e.PassEvent? { SyncOverwritesExactly(s.ledger, s.store, e.failing, u); }
        if u in s.ledger { assert s.ledger[u].uuid == u; }
      }
    }
  }

  // ---------------------------------------------------------------------
  // Whole runs
  // ---------------------------------------------------------------------

  ghost predicate TimelyRun(s: Replica, events: seq<Event>)
    decreases |events|
  {
    |events| > 0 ==> Timely(s, events[0]) && TimelyRun(Step(s, events[0]), events[1..])
  }

  ghost predicate NeverClobbers(s: Replica, events: seq<Event>)
    decreases |events|
  {
    |events| > 0 ==> !ClobberingEvent(s, events[0]) && NeverClobbers(Step(s, events[0]), events[1..])
  }

  /** No client write reaches a mirrored record that disagrees with the chain. */
  ghost predicate WritesHitFreshRecords(s: Replica, events: seq<Event>)
    decreases |events|
  {
    |events| > 0 ==>
      && (events[0].WriteEvent? && events[0].uuid in s.store && events[0].uuid in s.ledger ==>
            SameView(s.store[events[0].uuid], s.ledger[events[0].uuid]))
      && WritesHitFreshRecords(Step(s, events[0]), events[1..])
  }

  lemma {:induction false} FreshWritesNeverClobber(s: Replica, events: seq<Event>)
    requires WritesHitFreshRecords(s, events)
    ensures NeverClobbers(s, events)
    decreases |events|
  {
    if |events| > 0 {
      var e := events[0];
      if ClobberingEvent(s, e) { FreshIsNeverClobbered(e.op, s.ledger[e.uuid], s.store[e.uuid]); }
      FreshWritesNeverClobber(Step(s, e), events[1..]);
    }
  }

  lemma {:induction false} RunStaysSettled(s: Replica, events: seq<Event>)
    requires ReplicaOk(s) && AllSettled(s) && TimelyRun(s, events)
    requires NeverClobbers(s, events)
    ensures ReplicaOk(Run(s, events)) && AllSettled(Run(s, events))
    decreases |events|
  {
    if |events| > 0 {
      StepKeepsReplica(s, events[0]);
      ClobbersExactly(s, events[0]);
      RunStaysSettled(Step(s, events[0]), events[1..]);
    }
  }

  /** The first clobbering write of a run is the moment at which it stops being settled. */
  lemma {:induction false} FirstClobberUnsettles(s: Replica, events: seq<Event>, k: nat)
    requires ReplicaOk(s) && AllSettled(s) && TimelyRun(s, events) && k < |events|
    requires NeverClobbers(s, events[..k]) && ClobberingEvent(Run(s, events[..k]), events[k])
    ensures AllSettled(Run(s, events[..k])) && !AllSettled(Run(s, events[..k + 1]))
    decreases k
  {
    if k == 0 {
      assert events[..1][1..] == [] && events[..0] == [];
      ClobbersExactly(s, events[0]);
      assert Run(s, events[..1]) == Step(s, events[0]);
    } else {
      assert events[..k][1..] == events[1..][..k - 1] && events[..k + 1][1..] == events[1..][..k];
      StepKeepsReplica(s, events[0]);
      ClobbersExactly(s, events[0]);
      FirstClobberUnsettles(Step(s, events[0]), events[1..], k - 1);
    }
  }

  // ---------------------------------------------------------------------
  // The pass that repairs
  // ---------------------------------------------------------------------

  /** After a pass whose puts all succeed an agent shows what the chain shows if and only if it was settled; an
      unsettled record survives every pass untouched. */
  lemma PassRepairsExactlyTheSettled(s: Replica, u: string)
    requires ReplicaOk(s) && u in s.ledger
    ensures var t := Synced(s.ledger, s.store, {});
      u in t && (SameView(t[u], s.ledger[u]) <==> Settled(s.store, s.ledger[u]))
    ensures !Settled(s.store, s.ledger[u]) ==>
      forall failing: set<string> :: u in Synced(s.ledger, s.store, failing)
        && Synced(s.ledger, s.store, failing)[u] == s.store[u]
  {
    assert s.ledger[u].uuid == u;
    SyncOverwritesExactly(s.ledger, s.store, {}, u);
  }

  /** Some call of the run heals the agent. */
  ghost predicate EverHealed(s: Replica, events: seq<Event>, u: string)
    decreases |events|
  {
    |events| > 0 && (HealingEvent(s, events[0], u) || EverHealed(Step(s, events[0]), events[1..], u))
  }

  /** Some write of the run clobbers the agent, and no later call heals it. */
  ghost predicate StaysClobbered(s: Replica, events: seq<Event>, u: string)
    decreases |events|
  {
    |events| > 0 &&
    (|| (ClobbersAgent(s, events[0], u) && !EverHealed(Step(s, events[0]), events[1..], u))
     || StaysClobbered(Step(s, events[0]), events[1..], u))
  }

  lemma {:induction false} RunSettlesIff(s: Replica, events: seq<Event>, u: string)
    requires ReplicaOk(s) && TimelyRun(s, events)
    ensures ReplicaOk(Run(s, events))
    ensures SettledAt(Run(s, events), u) <==>
              !StaysClobbered(s, events, u) && (EverHealed(s, events, u) || SettledAt(s, u))
    decreases |events|
  {
    hide ReplicaOk, Step, ClobbersAgent, HealingEvent, SettledAt, Timely;
    if |events| > 0 {
      StepKeepsReplica(s, events[0]);
      SettledIff(s, events[0], u);
      RunSettlesIff(Step(s, events[0]), events[1..], u);
    }
  }

  /** Convergence, exactly: after any run from an empty system and one clean pass the mirror holds exactly the chain's
      agents, and one of them equals the chain on owner, level, state, permission, key and hash if and only if the run
      has no write that clobbers it and that no later call heals. */
  lemma MirrorConvergesIff(clock: Instant, events: seq<Event>)
    requires TimelyRun(Replica(map[], map[], clock), events)
    ensures var s := Run(Replica(map[], map[], clock), events);
      var t := Step(s, PassEvent({})).store;
      && t.Keys == s.ledger.Keys
      && forall u :: u in s.ledger ==>
           (SameView(t[u], s.ledger[u]) <==> !StaysClobbered(Replica(map[], map[], clock), events, u))
  {
    var s0 := Replica(map[], map[], clock);
    var s := Run(s0, events);
    RunKeepsReplica(s0, events);
    forall u ensures u in Step(s, PassEvent({})).store <==> u in s.ledger
             ensures u in s.ledger ==>
               (SameView(Step(s, PassEvent({})).store[u], s.ledger[u]) <==> !StaysClobbered(s0, events, u))
    {
      RunSettlesIff(s0, events, u);
      if u in s.ledger { PassRepairsExactlyTheSettled(s, u); }
      SyncOverwritesExactly(s.ledger, s.store, {}, u);
    }
  }

  lemma {:induction false} NeverClobbersNeverStays(s: Replica, events: seq<Event>, u: string)
    requires NeverClobbers(s, events)
    ensures !StaysClobbered(s, events, u)
    decreases |events|
  {
    if |events| > 0 { NeverClobbersNeverStays(Step(s, events[0]), events[1..], u); }
  }

  /** In particular any run without a clobbering write converges. */
  lemma MirrorConverges(clock: Instant, events: seq<Event>)
    requires TimelyRun(Replica(map[], map[], clock), events)
    requires NeverClobbers(Replica(map[], map[], clock), events)
    ensures var s := Run(Replica(map[], map[], clock), events);
      var t := Step(s, PassEvent({})).store;
      && t.Keys == s.ledger.Keys
      && forall u :: u in s.ledger ==> SameView(t[u], s.ledger[u])
  {
    MirrorConvergesIff(clock, events);
    forall u ensures !StaysClobbered(Replica(map[], map[], clock), events, u) {
      NeverClobbersNeverStays(Replica(map[], map[], clock), events, u);
    }
  }

  // ---------------------------------------------------------------------
  // The hypothesis is needed
  // ---------------------------------------------------------------------

  const WITNESS_RUN: seq<Event> := [
    RegisterEvent("u", RegisterRequest("alice", 1, 0, "pk"), "tx", 1, 2, true, true),
    WriteEvent("u", Ban("fraud"), 3, 4, true, false),
    WriteEvent("u", Upgrade(2, ""), 5, 6, true, true)
  ]

  /** Register, a ban that the store misses, an upgrade that both sides take: the mirror shows an active agent of
      level 2, the chain a banned one, and no pass ever repairs it. */
  lemma MissedBanThenUpgradeIsNeverRepaired(failing: set<string>)
    ensures var s := Run(Replica(map[], map[], 0), WITNESS_RUN);
      && TimelyRun(Replica(map[], map[], 0), WITNESS_RUN)
      && "u" in s.ledger && s.ledger["u"].state == ChainBanned
      && "u" in Synced(s.ledger, s.store, failing)
      && Synced(s.ledger, s.store, failing)["u"].state == Active
  {
    var s0 := Replica(map[], map[], 0);
    var r := RegisterRequest("alice", 1, 0, "pk");
    var a := Confirmed("u", r, "tx", 2);
    var m := Mirrored("u", r, "tx", 1);
    var s1 := Step(s0, WITNESS_RUN[0]);
    assert s1 == Replica(map["u" := a], map["u" := m], 2);
    var s2 := Step(s1, WITNESS_RUN[1]);
    assert s2.ledger == map["u" := a.(state := ChainBanned, updatedAt := 3)] && s2.store == s1.store && s2.clock == 4;
    var s3 := Step(s2, WITNESS_RUN[2]);
    assert s3.ledger == map["u" := a.(state := ChainBanned, level := 2, updatedAt := 5)];
    assert s3.store == map["u" := m.(level := 2, updatedAt := 6)];
    var w2, w1 := WITNESS_RUN[1..], WITNESS_RUN[1..][1..];
    assert w1 == [WITNESS_RUN[2]] && w1[1..] == [] && w2[0] == WITNESS_RUN[1];
    assert Run(s2, w1) == s3;
    assert Run(s1, w2) == s3;
    assert Run(s0, WITNESS_RUN) == s3;
    assert TimelyRun(s2, w1);
    assert TimelyRun(s1, w2);
    assert Repairs(s3.ledger, s3.store, failing) == map[];
  }

  // ---------------------------------------------------------------------
  // The steps are the calls of the backend
  // ---------------------------------------------------------------------

  /** What the object's methods promise about the store is what Step says: the four writes */
  lemma WriteIsCall(s: Replica, l: LocalState, e: Event)
    requires ReplicaOk(s) && l.store == s.store && e.WriteEvent?
    requires e.up && e.storeOk && ChainWrite(s.ledger, e.uuid, e.op, e.confirmedAt).Some?
    ensures Step(s, e).store == LocalWrite(l, e.uuid, e.op, e.now).state.store
  {
    hide LevelText, StateText;
    if e.uuid in s.store { assert s.store[e.uuid].uuid == e.uuid; }
  }

  /** and a registration. Reads, batch reads and passes are the same functions in both. */
  lemma RegisterIsCall(s: Replica, l: LocalState, e: Event)
    requires l.store == s.store && e.RegisterEvent?
    requires e.up && e.storeOk && ChainRegister(s.ledger, e.uid, e.req, e.txHash, e.confirmedAt).Some?
    ensures Step(s, e).store == MirrorToLocal(l, AgentCredential(
      e.uid, e.req.owner, e.req.level, Active, e.req.permission, e.req.publicKey, e.txHash, e.now, e.now)).store
  {
    assert Mirrored(e.uid, e.req, e.txHash, e.now).uuid == e.uid;
  }

  /** The object's chain and store are the replica's, and its owner index is a scan of the store. */
  ghost predicate Shows(h: HybridBackend, s: Replica)
    reads h.chain, h.local.pers, h.local.pers.owned
  {
    && h.Valid() && h.chain.ledger == s.ledger && h.local.pers.contents == s.store
    && IndexAgrees(h.local.pers.contents, h.local.pers.byOwner)
  }

  // The audit log of the hybrid backend.

  /** The entries that a call appends to agent u's log: one for a registration that is mirrored, and one for a write
      that both the chain and the local record accept. Reads and passes log nothing. */
  function LoggedBy(s: Replica, e: Event, u: string): seq<ChangeLog> {
    match e
    case RegisterEvent(uid, req, txHash, now, _, up, storeOk) =>
      if && uid == u && up && storeOk && uid != "" && uid !in s.ledger
         && req.owner != "" && req.level != 0 && req.publicKey != ""
      then [ChangeLog(uid, RegisterAction, req.owner, "", "active", "", txHash, now)] else []
    case WriteEvent(uuid, op, _, now, up, storeOk) =>
      if && uuid == u && up && storeOk && Accepts(s.ledger, u, op)
         && u in s.store && Applies(op, s.store[u])
      then [EntryFor(op, s.store[u], now)] else []
    case _ => []
  }

  function AllLogged(s: Replica, events: seq<Event>, u: string): seq<ChangeLog>
    decreases |events|
  {
    if |events| == 0 then [] else LoggedBy(s, events[0], u) + AllLogged(Step(s, events[0]), events[1..], u)
  }

  ghost predicate LogsGain(logs: Logs, s: Replica, e: Event, logs': Logs) {
    forall u :: LogsOf(logs', u) == LogsOf(logs, u) + LoggedBy(s, e, u)
  }

  /** One call logs in time, under the agent's own name, and a registration only for an agent that was not known. */
  lemma LoggedInTime(s: Replica, e: Event, u: string)
    requires ReplicaOk(s) && Timely(s, e)
    ensures forall x :: x in LoggedBy(s, e, u) ==>
      && x.uuid == u && s.clock < x.occurredAt <= Step(s, e).clock
      && (x.action.RegisterAction? <==> u !in s.ledger)
      && u in Step(s, e).ledger
    ensures u in s.ledger ==> u in Step(s, e).ledger
    ensures |LoggedBy(s, e, u)| <= 1 && s.clock <= Step(s, e).clock
  {
    hide LevelText, StateText, LocalVerdict, Decimal;
    if e.WriteEvent? {
      ChainWriteMeans(s.ledger, e.uuid, e.op, e.confirmedAt);
      if e.uuid in s.store { assert s.store[e.uuid].uuid == s.ledger[e.uuid].uuid == e.uuid; }
    }
  }

  /** The log of a mirrored agent after any run of the hybrid backend: stamps increase strictly, so a reader gets the
      entries in the order of the calls; all are the agent's; and only the first can be a registration, which it is if
      the registration was mirrored. */
  lemma {:induction false} HybridLogShape(s: Replica, events: seq<Event>, u: string)
    requires ReplicaOk(s) && TimelyRun(s, events)
    ensures StampsIncrease(AllLogged(s, events, u))
    ensures forall x :: x in AllLogged(s, events, u) ==> x.uuid == u && s.clock < x.occurredAt
    ensures forall k :: 0 <= k < |AllLogged(s, events, u)| && (k > 0 || u in s.ledger) ==>
      !AllLogged(s, events, u)[k].action.RegisterAction?
    decreases |events|
  {
    hide ReplicaOk, Timely, Step, LoggedBy;
    if |events| > 0 {
      var e := events[0];
      var one, rest := LoggedBy(s, e, u), AllLogged(Step(s, e), events[1..], u);
      LoggedInTime(s, e, u);
      StepKeepsReplica(s, e);
      HybridLogShape(Step(s, e), events[1..], u);
      assert AllLogged(s, events, u) == one + rest;
      if |one| == 1 {
        assert one[0] in one;
        assert forall k :: 1 <= k < |one + rest| ==> (one + rest)[k] == rest[k - 1] && rest[k - 1] in rest;
      } else {
        assert one + rest == rest;
      }
    }
  }

  /** Copies of what the chain shows never move an agent to another owner. */
  lemma ChainPutsKeepIndex(s: Replica, l: LocalState, puts: map<string, AgentInfo>, l': LocalState)
    requires ReplicaOk(s) && l.store == s.store && IndexAgrees(l.store, l.index) && PutAll(l, puts, l')
    requires forall u :: u in puts ==> u in s.ledger && puts[u] == View(s.ledger[u])
    ensures IndexAgrees(l'.store, l'.index)
  {
    PutAllKeepsIndexIff(l, puts, l');
  }

  lemma ReadPutsViews(s: Replica, uuid: string, readOk: bool, putOk: bool, up: bool)
    ensures var puts := FaultyGet(s.ledger, s.store, uuid, readOk, putOk, up).puts;
      forall u :: u in puts ==> u in s.ledger && puts[u] == View(s.ledger[u])
  {
  }

  /** Nor does a local write, */
  lemma WriteKeepsIndex(s: Replica, l: LocalState, u: string, op: WriteOp, now: Instant)
    requires ReplicaOk(s) && l.store == s.store && IndexAgrees(l.store, l.index)
    ensures var l' := LocalWrite(l, u, op, now).state; IndexAgrees(l'.store, l'.index)
  {
    hide LevelText, StateText;
    if u in l.store && LocalVerdict(op, l.store[u], now).Applied? {
      VerdictKeepsIdentity(op, l.store[u], s.ledger[u], now);
      PutKeepsIndexIff(l.store, l.index, LocalVerdict(op, l.store[u], now).rec);
    }
  }

  /** and a registration adds an agent that was not there. */
  lemma MirrorKeepsIndex(s: Replica, l: LocalState, cred: AgentCredential)
    requires ReplicaOk(s) && l.store == s.store && IndexAgrees(l.store, l.index) && cred.uuid !in s.ledger
    ensures var l' := MirrorToLocal(l, cred); IndexAgrees(l'.store, l'.index)
  {
    PutKeepsIndexIff(l.store, l.index, MirrorRecord(cred));
  }

  /** One event on the object, with any faults, is one step of the replica. */
  method Execute(h: HybridBackend, e: Event, ghost s: Replica)
    requires Shows(h, s) && ReplicaOk(s)
    modifies h.chain, h.local.pers
    ensures Shows(h, Step(s, e)) && LogsGain(old(h.local.pers.logs), s, e, h.local.pers.logs)
  {
    match e {
      case RegisterEvent(_, _, _, _, _, _, _) => ExecuteRegister(h, e, s);
      case WriteEvent(_, _, _, _, _, _) => ExecuteWrite(h, e, s);
      case ReadEvent(_, _, _, _) => ExecuteRead(h, e, s);
      case BatchEvent(_, _, _, _) => ExecuteBatch(h, e, s);
      case PassEvent(_) => ExecutePass(h, e, s);
    }
  }

  method ExecuteRegister(h: HybridBackend, e: Event, ghost s: Replica)
    requires Shows(h, s) && ReplicaOk(s) && e.RegisterEvent?
    modifies h.chain, h.local.pers
    ensures Shows(h, Step(s, e)) && LogsGain(old(h.local.pers.logs), s, e, h.local.pers.logs)
  {
    ghost var l := h.local.State();
    var res := h.RegisterAgent(e.uid, e.req, e.txHash, e.now, e.confirmedAt, e.up, e.storeOk);
    if res.Ok? && e.storeOk {
      RegisterIsCall(s, l, e);
      MirrorKeepsIndex(s, l, res.value);
    }
  }

  /** An accepted write logs what the local half applies. */
  lemma WriteGains(s: Replica, e: Event, l: LocalState, l': LocalState, res: Result<(), BackendError>)
    requires ReplicaOk(s) && l.store == s.store && e.WriteEvent?
    requires e.up && e.storeOk && Accepts(s.ledger, e.uuid, e.op) && WriteIs(l, e.uuid, e.op, e.now, l', res)
    ensures LogsGain(l.logs, s, e, l'.logs)
  {
    hide EntryFor, Rewritten, Accepts, LocalVerdict;
    if e.uuid in s.store { assert s.store[e.uuid].uuid == s.ledger[e.uuid].uuid == e.uuid; }
    assert e.uuid in s.store ==> EntryFor(e.op, s.store[e.uuid], e.now).uuid == e.uuid by { EntryNames(s, e); }
  }

  lemma EntryNames(s: Replica, e: Event)
    requires ReplicaOk(s) && e.WriteEvent?
    ensures e.uuid in s.store ==> EntryFor(e.op, s.store[e.uuid], e.now).uuid == e.uuid
  {
    if e.uuid in s.store { assert s.store[e.uuid].uuid == s.ledger[e.uuid].uuid == e.uuid; }
  }

  method ExecuteWrite(h: HybridBackend, e: Event, ghost s: Replica)
    requires Shows(h, s) && ReplicaOk(s) && e.WriteEvent?
    modifies h.chain, h.local.pers
    ensures Shows(h, Step(s, e)) && LogsGain(old(h.local.pers.logs), s, e, h.local.pers.logs)
  {
    hide LocalWrite, WriteIs, Becomes, Accepts, Applies, EntryFor, LocalVerdict, ReplicaOk;
    ghost var l := h.local.State();
    var res := h.Write(e.uuid, e.op, e.confirmedAt, e.now, e.up, e.storeOk);
    if res.Ok? && e.storeOk {
      WriteIsCall(s, l, e);
      WriteKeepsIndex(s, l, e.uuid, e.op, e.now);
      WriteGains(s, e, l, h.local.State(), LocalWrite(l, e.uuid, e.op, e.now).result);
    }
  }

  method ExecuteRead(h: HybridBackend, e: Event, ghost s: Replica)
    requires Shows(h, s) && ReplicaOk(s) && e.ReadEvent?
    modifies h.chain, h.local.pers
    ensures Shows(h, Step(s, e)) && LogsGain(old(h.local.pers.logs), s, e, h.local.pers.logs)
  {
    hide FaultyGet, IndexGrows, IndexAgrees;
    ghost var l := h.local.State();
    var _, _ := h.GetAgentInfo(e.uuid, e.readOk, e.putOk, e.up);
    ReadPutsViews(s, e.uuid, e.readOk, e.putOk, e.up);
    ChainPutsKeepIndex(s, l, FaultyGet(s.ledger, s.store, e.uuid, e.readOk, e.putOk, e.up).puts, h.local.State());
  }

  method ExecuteBatch(h: HybridBackend, e: Event, ghost s: Replica)
    requires Shows(h, s) && ReplicaOk(s) && e.BatchEvent?
    modifies h.chain, h.local.pers
    ensures Shows(h, Step(s, e)) && LogsGain(old(h.local.pers.logs), s, e, h.local.pers.logs)
  {
    hide IndexGrows, IndexAgrees;
    ghost var l := h.local.State();
    var _ := h.BatchGetAgentInfo(e.uuids, e.readOk, e.dark, e.unsaved);
    if e.readOk {
      ChainPutsKeepIndex(s, l, Fetched(s.ledger, s.store, e.uuids, e.dark) - e.unsaved, h.local.State());
    }
  }

  method ExecutePass(h: HybridBackend, e: Event, ghost s: Replica)
    requires Shows(h, s) && ReplicaOk(s) && e.PassEvent?
    modifies h.chain, h.local.pers
    ensures Shows(h, Step(s, e)) && LogsGain(old(h.local.pers.logs), s, e, h.local.pers.logs)
  {
    ghost var l := h.local.State();
    h.RunOnce(e.failing);
    ChainPutsKeepIndex(s, l, Repairs(s.ledger, s.store, e.failing), h.local.State());
  }

  method ExecuteAll(h: HybridBackend, events: seq<Event>, ghost s: Replica)
    requires Shows(h, s) && ReplicaOk(s) && TimelyRun(s, events)
    modifies h.chain, h.local.pers
    ensures Shows(h, Run(s, events))
    ensures forall u :: LogsOf(h.local.pers.logs, u) == LogsOf(old(h.local.pers.logs), u) + AllLogged(s, events, u)
    decreases |events|
  {
    hide Shows, Step, LoggedBy, ReplicaOk;
    if |events| > 0 {
      Execute(h, events[0], s);
      StepKeepsReplica(s, events[0]);
      ExecuteAll(h, events[1..], Step(s, events[0]));
    }
  }

  /** Convergence on the object: any run on an empty backend, then one clean pass. An agent equals the chain if and
      only if nothing clobbers it for good. The owner index is a scan then, as it is after every run. */
  method ConvergeOnObject(h: HybridBackend, events: seq<Event>, ghost clock: Instant)
    requires Shows(h, Replica(map[], map[], clock))
    requires TimelyRun(Replica(map[], map[], clock), events)
    modifies h.chain, h.local.pers
    ensures h.Valid() && h.local.pers.contents.Keys == h.chain.ledger.Keys
    ensures IndexAgrees(h.local.pers.contents, h.local.pers.byOwner)
    ensures forall u :: u in h.chain.ledger ==>
      (SameView(h.local.pers.contents[u], h.chain.ledger[u]) <==>
         !StaysClobbered(Replica(map[], map[], clock), events, u))
    ensures NeverClobbers(Replica(map[], map[], clock), events) ==>
      forall u :: u in h.chain.ledger ==> SameView(h.local.pers.contents[u], h.chain.ledger[u])
  {
    ghost var start := Replica(map[], map[], clock);
    ExecuteAll(h, events, start);
    MirrorConvergesIff(clock, events);
    if NeverClobbers(start, events) { MirrorConverges(clock, events); }
    ghost var s := Run(start, events);
    RunKeepsReplica(start, events);
    Execute(h, PassEvent({}), s);
  }

  lemma {:induction false} RunKeepsReplica(s: Replica, events: seq<Event>)
    requires ReplicaOk(s) && TimelyRun(s, events)
    ensures ReplicaOk(Run(s, events))
    decreases |events|
  {
    if |events| > 0 {
      StepKeepsReplica(s, events[0]);
      RunKeepsReplica(Step(s, events[0]), events[1..]);
    }
  }
}
