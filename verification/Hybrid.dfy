/** The hybrid backend (core/backend/hybrid.go), one call at a time: chain first, then a best-effort mirror;
    reads that fall back to the chain and backfill; the batch read; and the synchronisation pass.
    `up` says whether the chain answers, `storeOk` whether the local write goes through. */
module Hybrid {
  import opened Prelude
  import opened Records
  import opened MemoryPersistence
  import opened LocalBackend
  import opened Onchain

  // ---------------------------------------------------------------------
  // The calls as functions
  // ---------------------------------------------------------------------

  ghost predicate LedgerKeys(c: Ledger) {
    forall u :: u in c ==> c[u].uuid == u && |u| > 0
  }

  /** PutAgent without an audit entry: what a backfill and a sync pass do. */
  function Put(s: LocalState, r: AgentInfo): LocalState {
    s.(store := s.store[r.uuid := r], index := IndexPut(s.index, r.owner, r.uuid))
  }

  function MirrorRecord(cred: AgentCredential): AgentInfo {
    AgentInfo(cred.uuid, cred.owner, cred.level, cred.state, cred.permission, cred.publicKey, cred.txHash,
              cred.createdAt, cred.updatedAt)
  }

  function MirrorEntry(cred: AgentCredential): ChangeLog {
    ChangeLog(cred.uuid, RegisterAction, cred.owner, "", StateText(cred.state), "", cred.txHash, cred.createdAt)
  }

  function MirrorToLocal(s: LocalState, cred: AgentCredential): LocalState {
    PutAndLog(s, MirrorRecord(cred), MirrorEntry(cred))
  }

  /** The index lists what it did, and each record of `puts` under its owner. */
  ghost predicate IndexGrows(index: OwnerIndex, puts: map<string, AgentInfo>, index': OwnerIndex) {
    forall owner, u ::
      u in Indexed(index', owner) <==> u in Indexed(index, owner) || (u in puts && puts[u].owner == owner)
  }

  /** The local state after every record of `puts` has been put, in any order and without log entries. */
  ghost predicate PutAll(s: LocalState, puts: map<string, AgentInfo>, s': LocalState) {
    s'.store == s.store + puts && IndexGrows(s.index, puts, s'.index) && s'.logs == s.logs
  }

  lemma OneMoreIndexed(index: OwnerIndex, puts: map<string, AgentInfo>, index': OwnerIndex, r: AgentInfo)
    requires IndexGrows(index, puts, index') && r.uuid !in puts
    ensures IndexGrows(index, puts[r.uuid := r], IndexPut(index', r.owner, r.uuid))
  {
    var more, grown := puts[r.uuid := r], IndexPut(index', r.owner, r.uuid);
    forall owner, u
      ensures u in Indexed(grown, owner) <==> u in Indexed(index, owner) || (u in more && more[u].owner == owner)
    {
      IndexPutAdds(index', r.owner, r.uuid, owner, u);
      assert u in Indexed(index', owner) <==> u in Indexed(index, owner) || (u in puts && puts[u].owner == owner);
    }
  }

  lemma WithoutSome(m: map<string, AgentInfo>, keys: set<string>)
    ensures m - {} == m
    ensures m.Keys <= keys ==> m - keys == map[]
  {
  }

  lemma OneLessTodo(puts: map<string, AgentInfo>, todo: set<string>, u: string)
    requires u in todo
    ensures puts - (todo - {u}) == if u in puts then (puts - todo)[u := puts[u]] else puts - todo
  {
  }

  lemma NothingPut(s: LocalState)
    ensures PutAll(s, map[], s)
  {
    assert s.store + map[] == s.store;
  }

  lemma PutOneMore(s: LocalState, puts: map<string, AgentInfo>, s': LocalState, r: AgentInfo)
    requires PutAll(s, puts, s') && r.uuid !in puts
    ensures PutAll(s, puts[r.uuid := r], Put(s', r))
  {
    MergeUpdate(s.store, puts, r.uuid, r, r);
    OneMoreIndexed(s.index, puts, s'.index, r);
  }

  /** Puts keep the owner index a scan of the store if and only if none of them moves an agent to another owner. */
  lemma PutAllKeepsIndexIff(s: LocalState, puts: map<string, AgentInfo>, s': LocalState)
    requires IndexAgrees(s.store, s.index) && PutAll(s, puts, s')
    ensures IndexAgrees(s'.store, s'.index) <==>
              forall u :: u in puts && u in s.store ==> s.store[u].owner == puts[u].owner
  {
    if IndexAgrees(s'.store, s'.index) {
      forall u | u in puts && u in s.store ensures s.store[u].owner == puts[u].owner {
        assert u in Indexed(s.index, s.store[u].owner);
        assert s'.store[u] == puts[u];
      }
    } else {
      var owner, u :| !(u in Indexed(s'.index, owner) <==> u in s'.store && s'.store[u].owner == owner);
      assert u in Indexed(s.index, owner) <==> u in s.store && s.store[u].owner == owner;
    }
  }

  /** What a read returns, and what it puts into the store. */
  datatype Read = Read(result: Result<AgentInfo, BackendError>, puts: map<string, AgentInfo>)

  /** GetAgentInfo with faults: a failing local read falls through to the chain, a failing put is ignored. */
  function FaultyGet(c: Ledger, store: Store, uuid: string, readOk: bool, putOk: bool, up: bool): Read {
    if uuid == "" then Read(Err(Unavailable), map[])
    else if readOk && uuid in store then Read(Ok(store[uuid]), map[])
    else if !up then Read(Err(ChainFailure), map[])
    else match ChainGet(c, uuid)
      case Ok(info) => Read(Ok(info), if putOk then map[uuid := info] else map[])
      case Err(e) => Read(Err(e), map[])
  }

  datatype BatchRead = BatchRead(out: map<string, AgentInfo>, store: Store)

  /** Single reads, one after the other, collecting the successes. The chain does not answer for the UUIDs in
      `dark`, the puts of those in `unsaved` fail. */
  function FoldGet(c: Ledger, store: Store, uuids: seq<string>, dark: set<string>, unsaved: set<string>): BatchRead {
    if |uuids| == 0 then BatchRead(map[], store)
    else
      var before := FoldGet(c, store, uuids[..|uuids| - 1], dark, unsaved);
      OneMoreRead(c, before, uuids[|uuids| - 1], dark, unsaved)
  }

  function OneMoreRead(c: Ledger, before: BatchRead, u: string, dark: set<string>, unsaved: set<string>): BatchRead {
    var r := FaultyGet(c, before.store, u, true, u !in unsaved, u !in dark);
    BatchRead(if r.result.Ok? then before.out[u := r.result.value] else before.out, before.store + r.puts)
  }

  /** The agents of a list that the store lacks and for which the chain answers. */
  function Fetched(c: Ledger, store: Store, uuids: seq<string>, dark: set<string>): map<string, AgentInfo> {
    map u | u in uuids && u !in store && u !in dark && ChainGet(c, u).Ok? :: ChainGet(c, u).value
  }

  /** The batch read: local records, chain views of the rest, and what of these can be put. */
  function HybridBatch(c: Ledger, store: Store, uuids: seq<string>, dark: set<string>, unsaved: set<string>)
    : BatchRead
  {
    var fetched := Fetched(c, store, uuids, dark);
    BatchRead(Hits(store, uuids) + fetched, store + (fetched - unsaved))
  }

  lemma FetchedAppend(c: Ledger, store: Store, front: seq<string>, u: string, dark: set<string>)
    ensures Fetched(c, store, front + [u], dark) ==
            if u !in store && u !in dark && ChainGet(c, u).Ok?
            then Fetched(c, store, front, dark)[u := ChainGet(c, u).value] else Fetched(c, store, front, dark)
  {
    assert forall w :: w in front + [u] <==> w in front || w == u;
  }

  lemma HitsAppend(store: Store, front: seq<string>, u: string)
    ensures Hits(store, front + [u]) == if u in store then Hits(store, front)[u := store[u]] else Hits(store, front)
  {
    assert forall w :: w in front + [u] <==> w in front || w == u;
  }

  lemma MergeUpdate<K, V>(a: map<K, V>, b: map<K, V>, k: K, x: V, y: V)
    ensures a + b[k := y] == (a + b)[k := y] == a[k := x] + b[k := y]
    ensures k in b ==> a[k := x] + b == a + b
    ensures k !in b ==> a[k := x] + b == (a + b)[k := x]
  {
  }

  /** A local hit changes the result alone. */
  lemma HitAppend(c: Ledger, store: Store, front: seq<string>, u: string, dark: set<string>, unsaved: set<string>)
    requires KeysAgree(store) && u in store
    ensures HybridBatch(c, store, front + [u], dark, unsaved) ==
            OneMoreRead(c, HybridBatch(c, store, front, dark, unsaved), u, dark, unsaved)
  {
    var fetched, hits := Fetched(c, store, front, dark), Hits(store, front);
    FetchedAppend(c, store, front, u, dark);
    HitsAppend(store, front, u);
    MergeUpdate(hits, fetched, u, store[u], store[u]);
    var t := store + (fetched - unsaved);
    assert u in t && t[u] == store[u];
    assert t + map[] == t;
  }

  /** A miss asks the chain again, unless an earlier backfill of the same UUID went through. */
  lemma MissAppend(c: Ledger, store: Store, front: seq<string>, u: string, dark: set<string>, unsaved: set<string>)
    requires u !in store
    ensures HybridBatch(c, store, front + [u], dark, unsaved) ==
            OneMoreRead(c, HybridBatch(c, store, front, dark, unsaved), u, dark, unsaved)
  {
    var fetched, hits := Fetched(c, store, front, dark), Hits(store, front);
    FetchedAppend(c, store, front, u, dark);
    HitsAppend(store, front, u);
    var t := store + (fetched - unsaved);
    assert t + map[] == t;
    if u !in dark && ChainGet(c, u).Ok? {
      var x := ChainGet(c, u).value;
      MergeUpdate(hits, fetched, u, x, x);
      assert u in t ==> t[u] == x;
      SavedAppend(store, fetched, u, x, unsaved);
    } else {
      assert u !in t;
    }
  }

  /** What the store becomes by one more fetched record. */
  lemma SavedAppend(store: Store, fetched: map<string, AgentInfo>, u: string, x: AgentInfo, unsaved: set<string>)
    requires u !in store && (u in fetched ==> fetched[u] == x)
    ensures var t := store + (fetched - unsaved);
      store + (fetched[u := x] - unsaved) ==
        t + if u in t || u in unsaved then map[] else map[u := x]
  {
  }

  /** The batch read returns and stores exactly what the single reads would, under the same faults, duplicates
      and unknown or empty UUIDs included. */
  lemma {:induction false} BatchEqualsFold(c: Ledger, store: Store, uuids: seq<string>, dark: set<string>,
                                           unsaved: set<string>)
    requires KeysAgree(store)
    ensures HybridBatch(c, store, uuids, dark, unsaved) == FoldGet(c, store, uuids, dark, unsaved)
  {
    if |uuids| == 0 {
      assert Fetched(c, store, uuids, dark) == map[] && Hits(store, uuids) == map[];
      assert store + (map[] - unsaved) == store;
    } else {
      var front, u := uuids[..|uuids| - 1], uuids[|uuids| - 1];
      BatchEqualsFold(c, store, front, dark, unsaved);
      assert uuids == front + [u];
      if u in store {
        HitAppend(c, store, front, u, dark, unsaved);
      } else {
        MissAppend(c, store, front, u, dark, unsaved);
      }
    }
  }

  // ---------------------------------------------------------------------
  // The synchronisation pass as a function
  // ---------------------------------------------------------------------

  /** The local record is missing or strictly older than the confirmed one. */
  predicate Lags(store: Store, a: AgentOnchain) {
    a.uuid !in store || store[a.uuid].updatedAt < a.updatedAt
  }

  /** One listed agent: compare, fetch, put. */
  function SyncStep(store: Store, a: AgentOnchain, ok: bool): Store {
    if ok && Lags(store, a) then store[a.uuid := View(a)] else store
  }

  function SyncFold(store: Store, listed: seq<AgentOnchain>, failing: set<string>): Store {
    if |listed| == 0 then store
    else
      var last := listed[|listed| - 1];
      SyncStep(SyncFold(store, listed[..|listed| - 1], failing), last, last.uuid !in failing)
  }

  /** The records that a pass writes. */
  function Repairs(c: Ledger, store: Store, failing: set<string>): map<string, AgentInfo> {
    map u | u in c && u !in failing && Lags(store, c[u]) :: View(c[u])
  }

  /** One pass: the chain's view replaces exactly the lagging records whose fetch and put go through. */
  function Synced(c: Ledger, store: Store, failing: set<string>): Store {
    store + Repairs(c, store, failing)
  }

  ghost predicate DistinctUuids(listed: seq<AgentOnchain>) {
    forall i, j :: 0 <= i < j < |listed| ==> listed[i].uuid != listed[j].uuid
  }

  ghost function LedgerOf(listed: seq<AgentOnchain>): Ledger {
    if |listed| == 0 then map[]
    else var last := listed[|listed| - 1]; LedgerOf(listed[..|listed| - 1])[last.uuid := last]
  }

  lemma {:induction false} LedgerOfAt(listed: seq<AgentOnchain>, u: string)
    requires DistinctUuids(listed)
    ensures u in LedgerOf(listed) <==> exists i :: 0 <= i < |listed| && listed[i].uuid == u
    ensures u in LedgerOf(listed) ==> LedgerOf(listed)[u] in listed && LedgerOf(listed)[u].uuid == u
  {
    if |listed| > 0 {
      var front, a := listed[..|listed| - 1], listed[|listed| - 1];
      LedgerOfAt(front, u);
      assert forall i :: 0 <= i < |front| ==> front[i] == listed[i];
      if u == a.uuid { assert listed[|listed| - 1].uuid == u; }
      if u in LedgerOf(front) {
        var i :| 0 <= i < |front| && front[i].uuid == u;
        assert listed[i].uuid == u;
      }
    }
  }

  /** Visiting the listed agents one by one, in any order, is the pass. */
  lemma {:induction false} FoldIsSynced(store: Store, listed: seq<AgentOnchain>, failing: set<string>)
    requires DistinctUuids(listed)
    ensures SyncFold(store, listed, failing) == Synced(LedgerOf(listed), store, failing)
  {
    if |listed| == 0 {
      assert Repairs(LedgerOf(listed), store, failing) == map[];
    } else {
      var front, a := listed[..|listed| - 1], listed[|listed| - 1];
      FoldIsSynced(store, front, failing);
      LedgerOfAt(front, a.uuid);
      forall u | u in LedgerOf(front) ensures LedgerOf(front)[u].uuid == u { LedgerOfAt(front, u); }
      OneMoreListed(LedgerOf(front), store, failing, a);
    }
  }

  lemma OneMoreListed(c: Ledger, store: Store, failing: set<string>, a: AgentOnchain)
    requires a.uuid !in c && forall u :: u in c ==> c[u].uuid == u
    ensures SyncStep(Synced(c, store, failing), a, a.uuid !in failing) == Synced(c[a.uuid := a], store, failing)
  {
    OneMoreRepair(c, store, failing, a);
    var r := Repairs(c, store, failing);
    assert a.uuid !in r;
    assert Lags(store + r, a) == Lags(store, a);
    MergeUpdate(store, r, a.uuid, View(a), View(a));
  }

  lemma OneMoreRepair(c: Ledger, store: Store, failing: set<string>, a: AgentOnchain)
    requires a.uuid !in c
    ensures Repairs(c[a.uuid := a], store, failing) ==
            if a.uuid !in failing && Lags(store, a) then Repairs(c, store, failing)[a.uuid := View(a)]
            else Repairs(c, store, failing)
  {
  }

  lemma ListingIsLedger(c: Ledger, listed: seq<AgentOnchain>)
    requires forall a :: a in listed <==> a.uuid in c && c[a.uuid] == a
    requires LedgerKeys(c) && DistinctUuids(listed)
    ensures LedgerOf(listed) == c
  {
    forall u ensures u in LedgerOf(listed) <==> u in c
             ensures u in c ==> LedgerOf(listed)[u] == c[u]
    {
      LedgerOfAt(listed, u);
      if u in c {
        assert c[u] in listed;
        var i :| 0 <= i < |listed| && listed[i] == c[u];
        assert listed[i].uuid == u;
      }
      if u in LedgerOf(listed) { assert LedgerOf(listed)[u] in listed; }
    }
  }

  /** A pass overwrites exactly the lagging records, removes none and never moves a stamp backwards. */
  lemma SyncOverwritesExactly(c: Ledger, store: Store, failing: set<string>, u: string)
    requires LedgerKeys(c)
    ensures u in Synced(c, store, failing) <==> u in store || (u in c && u !in failing)
    ensures u in Synced(c, store, failing) ==>
      Synced(c, store, failing)[u] ==
        if u in c && u !in failing && (u !in store || store[u].updatedAt < c[u].updatedAt) then View(c[u]) else store[u]
    ensures u in store ==> store[u].updatedAt <= Synced(c, store, failing)[u].updatedAt
  {
    if u in c { assert c[u].uuid == u; }
  }

  /** After a pass without failures a second pass on a quiet chain changes nothing. */
  lemma SyncIdempotent(c: Ledger, store: Store, again: set<string>)
    requires LedgerKeys(c)
    ensures Synced(c, Synced(c, store, {}), again) == Synced(c, store, {})
  {
    var t := Synced(c, store, {});
    forall u | u in c ensures !Lags(t, c[u]) {
      assert c[u].uuid == u;
      SyncOverwritesExactly(c, store, {}, u);
    }
    assert Repairs(c, t, again) == map[];
  }

  // ---------------------------------------------------------------------
  // The backend as an object
  // ---------------------------------------------------------------------

  /** The record objects hold these values. */
  ghost predicate Boxes(recs: map<string, Record>, infos: map<string, AgentInfo>)
    reads recs.Values
  {
    recs.Keys == infos.Keys && forall u :: u in recs ==> recs[u].info == infos[u]
  }

  lemma BoxesJoin(a: map<string, Record>, b: map<string, Record>, x: map<string, AgentInfo>,
                  y: map<string, AgentInfo>)
    requires Boxes(a, x) && Boxes(b, y)
    ensures Boxes(a + b, x + y)
  {
  }

  class HybridBackend {
    const chain: OnchainBackend
    const local: LocalBackend

    constructor (chain: OnchainBackend, local: LocalBackend)
      ensures this.chain == chain && this.local == local
    {
      this.chain, this.local := chain, local;
    }

    ghost predicate Valid()
      reads chain, local.pers, local.pers.owned
    {
      local.Valid() && LedgerKeys(chain.ledger)
    }

    method RegisterAgent(uid: string, req: RegisterRequest, txHash: string, now: Instant, confirmedAt: Instant,
                         up: bool, storeOk: bool)
      returns (res: Result<AgentCredential, BackendError>)
      requires Valid()
      modifies chain, local.pers
      ensures Valid()
      ensures res.Ok? <==> up && ChainRegister(old(chain.ledger), uid, req, txHash, confirmedAt).Some?
      ensures res.Err? ==> chain.ledger == old(chain.ledger) && local.State() == old(local.State())
      ensures res.Ok? ==>
        && chain.ledger == ChainRegister(old(chain.ledger), uid, req, txHash, confirmedAt).value
        && res.value == AgentCredential(
             uid, req.owner, req.level, Active, req.permission, req.publicKey, txHash, now, now)
        && local.State() == if storeOk then MirrorToLocal(old(local.State()), res.value) else old(local.State())
      ensures res.Ok? <==>
        && up && uid != "" && uid !in old(chain.ledger)
        && req.owner != "" && req.level != 0 && req.publicKey != ""
      ensures res.Ok? ==> chain.ledger == old(chain.ledger)[uid := AgentOnchain(
        uid, req.owner, req.level, ChainActive, req.permission, req.publicKey, txHash, confirmedAt)]
      ensures res.Ok? && storeOk ==> LoggedPut(
        old(local.State()),
        AgentInfo(uid, req.owner, req.level, Active, req.permission, req.publicKey, txHash, now, now),
        ChangeLog(uid, RegisterAction, req.owner, "", "active", "", txHash, now),
        local.State())
      ensures res.Err? ==>
        res.error == if req.owner == "" || req.level == 0 || req.publicKey == "" then Unavailable else ChainFailure
    {
      res := chain.RegisterAgent(uid, req, txHash, now, confirmedAt, up);
      if res.Ok? && storeOk {
        var info := new Record(MirrorRecord(res.value));
        local.PutBack(info, MirrorEntry(res.value));
        PutAndLogMeans(old(local.State()), MirrorRecord(res.value), MirrorEntry(res.value));
      }
    }

    /** UpdateAgentLevel, BanAgent, UnbanAgent and UnregisterAgent: the local result is ignored. */
    method Write(uuid: string, op: WriteOp, confirmedAt: Instant, now: Instant, up: bool, storeOk: bool)
      returns (res: Result<(), BackendError>)
      requires Valid()
      modifies chain, local.pers
      ensures Valid()
      ensures res.Ok? <==> up && ChainWrite(old(chain.ledger), uuid, op, confirmedAt).Some?
      ensures res.Err? ==> chain.ledger == old(chain.ledger) && local.State() == old(local.State())
      ensures res.Ok? ==>
        && chain.ledger == ChainWrite(old(chain.ledger), uuid, op, confirmedAt).value
        && local.State() == if storeOk then LocalWrite(old(local.State()), uuid, op, now).state
                            else old(local.State())
      ensures res.Ok? <==> up && Accepts(old(chain.ledger), uuid, op)
      ensures res.Ok? ==>
        && chain.ledger.Keys == old(chain.ledger).Keys
        && Becomes(old(chain.ledger)[uuid], op, confirmedAt, chain.ledger[uuid])
        && forall v :: v in chain.ledger && v != uuid ==> chain.ledger[v] == old(chain.ledger)[v]
      ensures res.Ok? && storeOk ==>
        WriteIs(old(local.State()), uuid, op, now, local.State(), LocalWrite(old(local.State()), uuid, op, now).result)
      ensures res.Err? ==>
        res.error == if uuid == "" then Unavailable
                     else if op.Upgrade? && op.newLevel == 0 then InvalidState else ChainFailure
    {
      hide LocalWrite, WriteIs, Becomes;
      res := chain.Write(uuid, op, confirmedAt, up);
      if res.Err? {
        return;
      }
      TransactLaws(old(chain.ledger)[uuid], op, confirmedAt);
      LocalWriteMeans(local.State(), uuid, op, now);
      if storeOk {
        match op {
          case Upgrade(n, reason) => var _ := local.UpdateAgentLevel(uuid, n, reason, now);
          case Ban(reason) => var _ := local.BanAgent(uuid, reason, now);
          case Unban => var _ := local.UnbanAgent(uuid, now);
          case Unregister => var _ := local.UnregisterAgent(uuid, now);
        }
      }
    }

    /** `readOk` false is a local fault, which also falls through to the chain. */
    method GetAgentInfo(uuid: string, readOk: bool, putOk: bool, up: bool)
      returns (rec: Record?, error: BackendError)
      requires Valid()
      modifies local.pers
      ensures Valid()
      ensures rec != null ==> fresh(rec)
      ensures var r := FaultyGet(chain.ledger, old(local.pers.contents), uuid, readOk, putOk, up);
        && PutAll(old(local.State()), r.puts, local.State())
        && r.result == if rec != null then Ok(rec.info) else Err(error)
      ensures readOk && uuid != "" && uuid in old(local.pers.contents) ==>
        rec != null && rec.info == old(local.pers.contents)[uuid] && local.State() == old(local.State())
      ensures !(readOk && uuid != "" && uuid in old(local.pers.contents)) ==>
        && (rec != null <==> up && uuid != "" && uuid in chain.ledger)
        && (rec != null ==> rec.info == View(chain.ledger[uuid]))
        && (rec == null ==>
              && error == (if uuid == "" then Unavailable else if up then AgentNotFound else ChainFailure)
              && local.pers.contents == old(local.pers.contents))
        && local.pers.contents ==
             if rec != null && putOk then old(local.pers.contents)[uuid := rec.info] else old(local.pers.contents)
    {
      ghost var s := local.State();
      NothingPut(s);
      if uuid == "" {
        return null, Unavailable;
      }
      if readOk {
        rec := local.GetAgentInfo(uuid);
        if rec != null {
          error := AgentNotFound;
          return;
        }
      }
      rec, error := chain.GetAgentInfo(uuid, up);
      if rec != null && putOk {
        assert rec.info.uuid == uuid;
        StoreOne(rec);
        PutOneMore(s, map[], s, rec.info);
      }
    }

    /** The chain does not answer for the UUIDs in `dark`, and the puts of those in `unsaved` fail. A local read
        that fails leaves a nil map, and None is the panic of writing to it. The capacity that the source computes
        for `missing` is a nat. */
    method BatchGetAgentInfo(uuids: seq<string>, readOk: bool, dark: set<string>, unsaved: set<string>)
      returns (out: Option<map<string, Record>>)
      requires Valid()
      modifies local.pers
      ensures Valid()
      ensures readOk || |uuids| == 0 ==>
        && var r := HybridBatch(chain.ledger, old(local.pers.contents), uuids, dark, unsaved);
        && out.Some? && Boxes(out.value, r.out)
        && PutAll(old(local.State()), Fetched(chain.ledger, old(local.pers.contents), uuids, dark) - unsaved,
                  local.State())
      ensures !readOk ==> local.State() == old(local.State())
      ensures !readOk ==> out == if Fetched(chain.ledger, map[], uuids, dark) == map[] then Some(map[]) else None
    {
      hide PutAll, Indexed, Fetched, ChainGet, KeysAgree, LedgerKeys;
      ghost var s := local.State();
      if |uuids| == 0 {
        NothingAsked(chain.ledger, s, dark, unsaved);
        return Some(map[]);
      }
      var localOut: map<string, Record> := map[];
      if readOk {
        localOut := local.BatchGetAgentInfo(uuids);
      }
      var chainOut := FetchMissing(uuids, localOut.Keys, dark, if readOk then s.store else map[]);
      if !readOk {
        return if chainOut == map[] then Some(map[]) else None;
      }
      FetchedKeys(chain.ledger, s.store, uuids, dark);
      StoreAll(chainOut, unsaved, Fetched(chain.ledger, s.store, uuids, dark));
      BoxesJoin(localOut, chainOut, Hits(s.store, uuids), Fetched(chain.ledger, s.store, uuids, dark));
      out := Some(localOut + chainOut);
    }

    /** Asks the chain for what was not hit locally. */
    method FetchMissing(uuids: seq<string>, hits: set<string>, dark: set<string>, ghost store: Store)
      returns (out: map<string, Record>)
      requires forall u :: u in hits <==> u in uuids && u in store
      ensures forall u :: u in out ==> fresh(out[u])
      ensures Boxes(out, Fetched(chain.ledger, store, uuids, dark))
    {
      var missing := MissingFrom(uuids, hits);
      var failing := set k: nat | k < |missing| && missing[k] in dark;
      MissesSuffice(chain.ledger, store, uuids, missing, dark, failing);
      out := chain.BatchGetAgentInfo(missing, failing);
    }

    /** A put whose error is ignored. */
    method StoreOne(rec: Record)
      requires Valid() && rec.info.uuid != ""
      modifies local.pers
      ensures Valid()
      ensures local.State() == Put(old(local.State()), rec.info)
    {
      var _ := local.pers.PutAgent(rec);
    }

    /** Stores fetched records, in the arbitrary order in which a Go map yields them. */
    method StoreAll(found: map<string, Record>, unsaved: set<string>, ghost infos: map<string, AgentInfo>)
      requires Valid() && KeysAgree(infos)
      requires Boxes(found, infos)
      modifies local.pers
      ensures Valid()
      ensures PutAll(old(local.State()), infos - unsaved, local.State())
    {
      hide PutAll, Put, Indexed, KeysAgree;
      ghost var s := local.State();
      var todo := found.Keys;
      WithoutSome(infos - unsaved, todo);
      NothingPut(s);
      while todo != {}
        invariant Valid() && todo <= found.Keys
        invariant PutAll(s, infos - unsaved - todo, local.State())
        decreases todo
      {
        var u :| u in todo;
        StoreNext(found[u], u, unsaved, s, infos, todo);
        todo := todo - {u};
      }
    }

    method StoreNext(rec: Record, u: string, unsaved: set<string>, ghost s: LocalState,
                     ghost infos: map<string, AgentInfo>, ghost todo: set<string>)
      requires Valid() && KeysAgree(infos) && u in infos && rec.info == infos[u]
      requires u in todo && PutAll(s, infos - unsaved - todo, local.State())
      modifies local.pers
      ensures Valid()
      ensures PutAll(s, infos - unsaved - (todo - {u}), local.State())
    {
      hide PutAll, Put, Indexed;
      OneLessTodo(infos - unsaved, todo, u);
      if u !in unsaved {
        PutOneMore(s, infos - unsaved - todo, local.State(), rec.info);
        StoreOne(rec);
      }
    }

    /** The loop body of a pass: compare with the listed copy, fetch, put. */
    method SyncAgent(c: AgentOnchain, ok: bool)
      requires Valid() && c.uuid in chain.ledger && chain.ledger[c.uuid] == c
      modifies local.pers
      ensures Valid()
      ensures local.State() ==
              if ok && Lags(old(local.pers.contents), c) then Put(old(local.State()), View(c)) else old(local.State())
      ensures local.pers.contents == SyncStep(old(local.pers.contents), c, ok)
    {
      var rec := local.pers.GetAgent(c.uuid);
      if rec != null && !(rec.info.updatedAt < c.updatedAt) {
        return;
      }
      var chainInfo, _ := chain.GetAgentInfo(c.uuid, ok);
      if chainInfo != null {
        StoreOne(chainInfo);
      }
    }

    /** One pass over the listed agents; `failing` are those whose fetch or put fails. */
    method RunOnce(failing: set<string>)
      requires Valid()
      modifies local.pers
      ensures Valid()
      ensures PutAll(old(local.State()), Repairs(chain.ledger, old(local.pers.contents), failing), local.State())
      ensures local.pers.contents == Synced(chain.ledger, old(local.pers.contents), failing)
    {
      hide PutAll, Put, Indexed, Lags;
      ghost var s := local.State();
      var all := chain.ListAll();
      assert Repairs(map[], s.store, failing) == map[];
      NothingPut(s);
      for k := 0 to |all|
        invariant Valid()
        invariant PutAll(s, Repairs(LedgerOf(all[..k]), s.store, failing), local.State())
        invariant local.pers.contents == SyncFold(s.store, all[..k], failing)
      {
        assert all[..k + 1][..k] == all[..k];
        ListedStep(s, local.State(), all, k, failing);
        SyncAgent(all[k], all[k].uuid !in failing);
      }
      assert all[..|all|] == all;
      ListingIsLedger(chain.ledger, all);
      FoldIsSynced(s.store, all, failing);
    }
  }

  /** Visiting one more listed agent makes one more repair, or none. */
  lemma ListedStep(s: LocalState, s': LocalState, all: seq<AgentOnchain>, k: nat, failing: set<string>)
    requires k < |all| && DistinctUuids(all)
    requires PutAll(s, Repairs(LedgerOf(all[..k]), s.store, failing), s')
    ensures var a := all[k];
      PutAll(s, Repairs(LedgerOf(all[..k + 1]), s.store, failing),
             if a.uuid !in failing && Lags(s'.store, a) then Put(s', View(a)) else s')
  {
    var c, a := LedgerOf(all[..k]), all[k];
    assert all[..k + 1][..k] == all[..k];
    LedgerOfAt(all[..k], a.uuid);
    assert forall i :: 0 <= i < k ==> all[..k][i] == all[i];
    OneMoreRepair(c, s.store, failing, a);
    var puts := Repairs(c, s.store, failing);
    assert a.uuid !in puts;
    if a.uuid !in failing && Lags(s'.store, a) { PutOneMore(s, puts, s', View(a)); }
  }

  /** A batch of no UUIDs reads and puts nothing. */
  lemma NothingAsked(c: Ledger, s: LocalState, dark: set<string>, unsaved: set<string>)
    ensures HybridBatch(c, s.store, [], dark, unsaved).out == map[]
    ensures Fetched(c, s.store, [], dark) == map[] == Fetched(c, map[], [], dark)
    ensures PutAll(s, Fetched(c, s.store, [], dark) - unsaved, s)
  {
    assert Fetched(c, s.store, [], dark) == map[];
    assert Hits(s.store, []) == map[];
    assert s.store + (map[] - unsaved) == s.store;
  }

  /** The UUIDs of a list that were not hit, with a capacity hint that must not be negative. */
  method MissingFrom(uuids: seq<string>, hits: set<string>) returns (missing: seq<string>)
    requires forall u :: u in hits ==> u in uuids
    ensures forall u :: u in missing <==> u in uuids && u !in hits
  {
    SubsetOfListSize(hits, uuids);
    var capacity: nat := |uuids| - |hits|;
    missing := [];
    for k := 0 to |uuids|
      invariant forall u :: u in missing <==> u in uuids[..k] && u !in hits
    {
      if uuids[k] !in hits {
        missing := missing + [uuids[k]];
      }
    }
  }

  /** Asking the chain for the misses alone, with the reads of dark UUIDs failing, fetches what the store lacks. */
  lemma MissesSuffice(c: Ledger, store: Store, uuids: seq<string>, missing: seq<string>, dark: set<string>,
                      failing: set<nat>)
    requires forall u :: u in missing <==> u in uuids && u !in store
    requires forall k: nat :: k in failing <==> k < |missing| && missing[k] in dark
    ensures ChainBatch(c, Answered(missing, failing)) == Fetched(c, store, uuids, dark)
  {
    var some := Answered(missing, failing);
    forall u ensures u in some <==> u in uuids && u !in store && u !in dark {
      AnsweredMembers(missing, failing, u);
      if u in missing {
        var i :| 0 <= i < |missing| && missing[i] == u;
      }
    }
  }

  lemma FetchedKeys(c: Ledger, store: Store, uuids: seq<string>, dark: set<string>)
    requires LedgerKeys(c)
    ensures KeysAgree(Fetched(c, store, uuids, dark))
  {
  }

  /** Local records first, and the chain asked for the misses alone: the same as asking the chain for the whole
      list and letting local records win. */
  lemma BatchSplits(c: Ledger, store: Store, uuids: seq<string>, dark: set<string>, unsaved: set<string>)
    ensures HybridBatch(c, store, uuids, dark, unsaved).out == (ChainBatch(c, uuids) - dark) + Hits(store, uuids)
    ensures HybridBatch(c, store, uuids, dark, unsaved).store ==
            (ChainBatch(c, uuids) - dark - unsaved) + store
  {
    var asked, fetched := ChainBatch(c, uuids) - dark, Fetched(c, store, uuids, dark);
    forall u ensures u in fetched <==> u in asked && u !in store {}
    forall u | u in fetched ensures fetched[u] == asked[u] {}
    assert Hits(store, uuids) + fetched == asked + Hits(store, uuids);
  }

  /** A set drawn from a list is no larger than the list. */
  lemma {:induction false} SubsetOfListSize(s: set<string>, list: seq<string>)
    requires forall u :: u in s ==> u in list
    ensures |s| <= |list|
  {
    if |list| == 0 {
      assert s == {};
    } else {
      var last := list[|list| - 1];
      SubsetOfListSize(s - {last}, list[..|list| - 1]);
      assert |s| <= |s - {last}| + 1 by { assert s <= (s - {last}) + {last}; SubsetSize(s, (s - {last}) + {last}); }
    }
  }

  lemma {:induction false} SubsetSize<T>(a: set<T>, b: set<T>)
    requires a <= b
    ensures |a| <= |b|
  {
    assert |b| == |a| + |b - a| by { assert b == a + (b - a); }
  }
}
