/** The two models of the hybrid backend agree: a call that nobody interrupts does in the interleaved model
    (Interleaving) what the whole call does in the one-call-at-a-time model (Convergence), fault by fault, and so every
    serialized run is one of the interleavings. */
module SerialHybrid {
  import opened Prelude
  import opened Records
  import opened MemoryPersistence
  import opened LocalBackend
  import opened Onchain
  import opened Hybrid
  import opened Convergence
  import opened Interleaving

  /** The moves can be made in turn, all by call `id`, and leave that chain, that store and those tasks. */
  ghost predicate Does(w: World, id: nat, moves: seq<Move>, ledger: Ledger, store: Store, tasks: map<nat, Task>) {
    && (forall m :: m in moves ==> m.id == id)
    && Schedule(w, moves)
    && After(w, moves).ledger == ledger && After(w, moves).store == store && After(w, moves).tasks == tasks
  }

  lemma {:induction false} ScheduleConcat(w: World, first: seq<Move>, second: seq<Move>)
    requires Schedule(w, first) && Schedule(After(w, first), second)
    ensures Schedule(w, first + second) && After(w, first + second) == After(After(w, first), second)
    decreases |first|
  {
    hide Enabled, Apply;
    if |first| == 0 {
      assert first + second == second;
    } else {
      assert (first + second)[1..] == first[1..] + second;
      ScheduleConcat(Apply(w, first[0]), first[1..], second);
    }
  }

  lemma NoMoves(w: World)
    ensures Schedule(w, []) && After(w, []) == w
  {
  }

  lemma OneMove(w: World, m: Move)
    requires Enabled(w, m)
    ensures Schedule(w, [m]) && After(w, [m]) == Apply(w, m)
  {
    hide Enabled, Apply;
    assert [m][1..] == [];
  }

  lemma MoreMoves(w: World, first: seq<Move>, m: Move)
    requires Schedule(w, first) && Enabled(After(w, first), m)
    ensures Schedule(w, first + [m]) && After(w, first + [m]) == Apply(After(w, first), m)
  {
    OneMove(After(w, first), m);
    ScheduleConcat(w, first, [m]);
  }

  lemma DoesBoth(w: World, id: nat, first: seq<Move>, ledger: Ledger, store: Store, tasks: map<nat, Task>,
                 second: seq<Move>, ledger': Ledger, store': Store, tasks': map<nat, Task>)
    requires Does(w, id, first, ledger, store, tasks)
    requires Does(After(w, first), id, second, ledger', store', tasks')
    ensures Does(w, id, first + second, ledger', store', tasks')
  {
    hide Enabled, Apply, Schedule, After;
    ScheduleConcat(w, first, second);
  }

  // ---------------------------------------------------------------------
  // Registrations and writes
  // ---------------------------------------------------------------------

  function RegisterMoves(c: Ledger, id: nat, uid: string, req: RegisterRequest, txHash: string, now: Instant,
                         confirmedAt: Instant, up: bool, putOk: bool): seq<Move>
  {
    if !WellFormed(req) then []
    else
      [BeginRegister(id, uid, req, now), ConfirmRegister(id, txHash, confirmedAt, up)]
      + if up && uid != "" && uid !in c then [PutMirror(id, putOk)] else []
  }

  lemma MirrorAlone(w: World, id: nat, r: AgentInfo, putOk: bool)
    requires id in w.tasks && w.tasks[id] == Mirroring(r)
    ensures Does(w, id, [PutMirror(id, putOk)], w.ledger, if putOk then w.store[r.uuid := r] else w.store,
                 w.tasks - {id})
  {
    hide IndexPut;
    OneMove(w, PutMirror(id, putOk));
  }

  lemma ConfirmAlone(w: World, id: nat, uid: string, req: RegisterRequest, txHash: string, now: Instant,
                     confirmedAt: Instant, up: bool)
    requires id !in w.tasks && WellFormed(req)
    ensures var c := ChainRegister(w.ledger, uid, req, txHash, confirmedAt);
      Does(w, id, [BeginRegister(id, uid, req, now), ConfirmRegister(id, txHash, confirmedAt, up)],
           if up && c.Some? then c.value else w.ledger, w.store,
           if up && c.Some? then w.tasks[id := Mirroring(Mirrored(uid, req, txHash, now))] else w.tasks)
  {
    hide ExtendTrace, PutStore, Confirmed, Mirrored;
    var first, second := BeginRegister(id, uid, req, now), ConfirmRegister(id, txHash, confirmedAt, up);
    OneMove(w, first);
    MoreMoves(w, [first], second);
    assert [first] + [second] == [first, second];
  }

  lemma RegisterAlone(w: World, id: nat, uid: string, req: RegisterRequest, txHash: string, now: Instant,
                      confirmedAt: Instant, up: bool, putOk: bool)
    requires id !in w.tasks
    ensures var s := Step(Replica(w.ledger, w.store, now),
                          RegisterEvent(uid, req, txHash, now, confirmedAt, up, putOk));
      Does(w, id, RegisterMoves(w.ledger, id, uid, req, txHash, now, confirmedAt, up, putOk), s.ledger, s.store,
           w.tasks)
  {
    hide Enabled, Apply, Schedule, After, Confirmed;
    if WellFormed(req) {
      ConfirmAlone(w, id, uid, req, txHash, now, confirmedAt, up);
      var first := [BeginRegister(id, uid, req, now), ConfirmRegister(id, txHash, confirmedAt, up)];
      if up && uid != "" && uid !in w.ledger {
        var w1, r := After(w, first), Mirrored(uid, req, txHash, now);
        MirrorAlone(w1, id, r, putOk);
        assert w1.tasks - {id} == w.tasks;
        DoesBoth(w, id, first, w1.ledger, w.store, w1.tasks, [PutMirror(id, putOk)], w1.ledger,
                 if putOk then w.store[uid := r] else w.store, w.tasks);
      } else {
        assert first + [] == first;
      }
    } else {
      NoMoves(w);
    }
  }

  function LocalHalf(store: Store, id: nat, u: string, now: Instant, readOk: bool, putOk: bool): seq<Move> {
    [ReadLocal(id, readOk)] + if readOk && u in store then [PutLocal(id, now, putOk)] else []
  }

  lemma LocalHalfAlone(w: World, id: nat, u: string, op: WriteOp, now: Instant, readOk: bool, putOk: bool)
    requires id in w.tasks && w.tasks[id] == Reading(u, op) && (u in w.store ==> w.store[u].uuid == u)
    ensures Does(w, id, LocalHalf(w.store, id, u, now, readOk, putOk), w.ledger,
                 if readOk && putOk then StoreWrite(w.store, u, op, now) else w.store, w.tasks - {id})
  {
    hide IndexPut;
    var read := ReadLocal(id, readOk);
    OneMove(w, read);
    if readOk && u in w.store {
      MoreMoves(w, [read], PutLocal(id, now, putOk));
      VerdictMeans(op, w.store[u], now);
      hide LocalVerdict;
    } else {
      assert [read] + [] == [read];
    }
  }

  /** A write whose local read or put may fail: its local half goes through when neither does. */
  function WriteMoves(w: World, id: nat, u: string, op: WriteOp, confirmedAt: Instant, now: Instant, up: bool,
                      readOk: bool, putOk: bool): seq<Move>
  {
    [ConfirmWrite(id, u, op, confirmedAt, up)]
    + if up && Accepts(w.ledger, u, op) then LocalHalf(w.store, id, u, now, readOk, putOk) else []
  }

  lemma WriteAlone(w: World, id: nat, u: string, op: WriteOp, confirmedAt: Instant, now: Instant, up: bool,
                   readOk: bool, putOk: bool)
    requires id !in w.tasks && (u in w.store ==> w.store[u].uuid == u)
    ensures var s := Step(Replica(w.ledger, w.store, now),
                          WriteEvent(u, op, confirmedAt, now, up, readOk && putOk));
      Does(w, id, WriteMoves(w, id, u, op, confirmedAt, now, up, readOk, putOk), s.ledger, s.store,
           w.tasks)
  {
    hide ExtendTrace, Transact, Accepts, StoreWrite, LocalHalf;
    var first := ConfirmWrite(id, u, op, confirmedAt, up);
    OneMove(w, first);
    ChainWriteMeans(w.ledger, u, op, confirmedAt);
    if up && Accepts(w.ledger, u, op) {
      var w1 := After(w, [first]);
      LocalHalfAlone(w1, id, u, op, now, readOk, putOk);
      assert w1.tasks - {id} == w.tasks;
      DoesBoth(w, id, [first], w1.ledger, w.store, w1.tasks, LocalHalf(w.store, id, u, now, readOk, putOk), w1.ledger,
               if readOk && putOk then StoreWrite(w.store, u, op, now) else w.store, w.tasks);
    } else {
      assert [first] + [] == [first];
    }
  }

  // ---------------------------------------------------------------------
  // Reads
  // ---------------------------------------------------------------------

  /** The chain is asked for what was not read locally, and what it answers is put. */
  function ReadMoves(c: Ledger, store: Store, id: nat, u: string, readOk: bool, putOk: bool, up: bool): seq<Move> {
    if up && u in c && u != "" && !(readOk && u in store) then [FetchMissing(id, u), PutBackfill(id, putOk)] else []
  }

  lemma BackfillAlone(w: World, id: nat, u: string, putOk: bool)
    requires id !in w.tasks && ChainGet(w.ledger, u).Ok? && ChainGet(w.ledger, u).value.uuid == u
    ensures Does(w, id, [FetchMissing(id, u), PutBackfill(id, putOk)], w.ledger,
                 if putOk then w.store[u := ChainGet(w.ledger, u).value] else w.store, w.tasks)
  {
    hide IndexPut, ChainGet;
    OneMove(w, FetchMissing(id, u));
    MoreMoves(w, [FetchMissing(id, u)], PutBackfill(id, putOk));
    assert [FetchMissing(id, u)] + [PutBackfill(id, putOk)] == [FetchMissing(id, u), PutBackfill(id, putOk)];
  }

  lemma ReadAlone(w: World, id: nat, u: string, readOk: bool, putOk: bool, up: bool)
    requires id !in w.tasks && LedgerKeys(w.ledger)
    ensures Does(w, id, ReadMoves(w.ledger, w.store, id, u, readOk, putOk, up), w.ledger,
                 w.store + FaultyGet(w.ledger, w.store, u, readOk, putOk, up).puts, w.tasks)
  {
    hide Enabled, Apply, Schedule, After;
    assert w.store + map[] == w.store;
    if up && u in w.ledger && u != "" && !(readOk && u in w.store) {
      BackfillAlone(w, id, u, putOk);
      assert w.store + map[u := View(w.ledger[u])] == w.store[u := View(w.ledger[u])];
    } else {
      NoMoves(w);
    }
  }

  /** The batch read as the reads of its misses. */
  function BatchMoves(c: Ledger, store: Store, id: nat, uuids: seq<string>, dark: set<string>, unsaved: set<string>)
    : seq<Move>
  {
    if |uuids| == 0 then []
    else
      var front, u := uuids[..|uuids| - 1], uuids[|uuids| - 1];
      BatchMoves(c, store, id, front, dark, unsaved)
      + ReadMoves(c, FoldGet(c, store, front, dark, unsaved).store, id, u, true, u !in unsaved, u !in dark)
  }

  lemma {:induction false} FoldAlone(w: World, id: nat, uuids: seq<string>, dark: set<string>, unsaved: set<string>)
    requires id !in w.tasks && LedgerKeys(w.ledger)
    ensures Does(w, id, BatchMoves(w.ledger, w.store, id, uuids, dark, unsaved), w.ledger,
                 FoldGet(w.ledger, w.store, uuids, dark, unsaved).store, w.tasks)
  {
    if |uuids| > 0 {
      hide Enabled, Apply, Schedule, After, FaultyGet;
      var front, u := uuids[..|uuids| - 1], uuids[|uuids| - 1];
      FoldAlone(w, id, front, dark, unsaved);
      var first := BatchMoves(w.ledger, w.store, id, front, dark, unsaved);
      var w1 := After(w, first);
      ReadAlone(w1, id, u, true, u !in unsaved, u !in dark);
      DoesBoth(w, id, first, w.ledger, w1.store, w.tasks,
               ReadMoves(w.ledger, w1.store, id, u, true, u !in unsaved, u !in dark), w.ledger,
               w1.store + FaultyGet(w.ledger, w1.store, u, true, u !in unsaved, u !in dark).puts, w.tasks);
    }
  }

  lemma BatchAlone(w: World, id: nat, uuids: seq<string>, dark: set<string>, unsaved: set<string>)
    requires id !in w.tasks && LedgerKeys(w.ledger) && KeysAgree(w.store)
    ensures Does(w, id, BatchMoves(w.ledger, w.store, id, uuids, dark, unsaved), w.ledger,
                 HybridBatch(w.ledger, w.store, uuids, dark, unsaved).store, w.tasks)
  {
    hide Does;
    FoldAlone(w, id, uuids, dark, unsaved);
    BatchEqualsFold(w.ledger, w.store, uuids, dark, unsaved);
  }

  // ---------------------------------------------------------------------
  // Passes
  // ---------------------------------------------------------------------

  /** Where things go wrong in a pass, by UUID: in reading the local record, in fetching, in putting. */
  datatype Faults = Faults(unread: set<string>, unfetched: set<string>, unsaved: set<string>)

  /** The records that a pass writes when local reads may fail, too: an agent whose record cannot be read is fetched as
      if it lagged. */
  function Overwrites(c: Ledger, store: Store, f: Faults): map<string, AgentInfo> {
    map u | u in c && u !in f.unfetched && u !in f.unsaved && (u in f.unread || Lags(store, c[u])) :: View(c[u])
  }

  function RepairMoves(id: nat, a: AgentOnchain, f: Faults): seq<Move> {
    [FetchHead(id, a.uuid !in f.unfetched)]
    + if a.uuid in f.unfetched then [] else [PutHead(id, a.uuid !in f.unsaved)]
  }

  function HeadMoves(store: Store, id: nat, a: AgentOnchain, f: Faults): seq<Move> {
    [CompareHead(id, a.uuid !in f.unread)]
    + if a.uuid in f.unread || Lags(store, a) then RepairMoves(id, a, f) else []
  }

  function PassMoves(store: Store, id: nat, listed: seq<AgentOnchain>, k: nat, f: Faults): seq<Move>
    requires k <= |listed|
  {
    if k == 0 then [BeginPass(id, listed)]
    else PassMoves(store, id, listed, k - 1, f) + HeadMoves(store, id, listed[k - 1], f)
  }

  lemma RepairAlone(w: World, id: nat, rest: seq<AgentOnchain>, f: Faults)
    requires id in w.tasks && w.tasks[id] == Fetching(rest) && |rest| > 0
    requires ChainGet(w.ledger, rest[0].uuid) == Ok(View(rest[0])) && View(rest[0]).uuid == rest[0].uuid
    ensures var a := rest[0];
      Does(w, id, RepairMoves(id, a, f), w.ledger,
           if a.uuid !in f.unfetched && a.uuid !in f.unsaved then w.store[a.uuid := View(a)] else w.store,
           w.tasks[id := Comparing(rest[1..])])
  {
    hide IndexPut, Lags, ChainGet, View;
    var a := rest[0];
    var fetch := FetchHead(id, a.uuid !in f.unfetched);
    OneMove(w, fetch);
    if a.uuid !in f.unfetched {
      MoreMoves(w, [fetch], PutHead(id, a.uuid !in f.unsaved));
    } else {
      assert [fetch] + [] == [fetch];
    }
  }

  lemma HeadAlone(w: World, id: nat, rest: seq<AgentOnchain>, store: Store, f: Faults)
    requires id in w.tasks && w.tasks[id] == Comparing(rest) && |rest| > 0 && rest[0].uuid != ""
    requires rest[0].uuid in w.ledger && w.ledger[rest[0].uuid] == rest[0]
    requires Lags(w.store, rest[0]) == Lags(store, rest[0])
    ensures var a := rest[0];
      Does(w, id, HeadMoves(store, id, a, f), w.ledger,
           if a.uuid !in f.unfetched && a.uuid !in f.unsaved && (a.uuid in f.unread || Lags(store, a))
           then w.store[a.uuid := View(a)] else w.store,
           w.tasks[id := Comparing(rest[1..])])
  {
    hide IndexPut, Lags, RepairMoves;
    var a := rest[0];
    var one := CompareHead(id, a.uuid !in f.unread);
    OneMove(w, one);
    var w1 := After(w, [one]);
    if a.uuid in f.unread || Lags(store, a) {
      RepairAlone(w1, id, rest, f);
      hide View;
      assert w1.tasks[id := Comparing(rest[1..])] == w.tasks[id := Comparing(rest[1..])];
      DoesBoth(w, id, [one], w.ledger, w.store, w1.tasks, RepairMoves(id, a, f), w.ledger,
               if a.uuid !in f.unfetched && a.uuid !in f.unsaved then w.store[a.uuid := View(a)] else w.store,
               w.tasks[id := Comparing(rest[1..])]);
    } else {
      assert [one] + [] == [one];
    }
  }

  lemma OneMoreOverwrite(c: Ledger, store: Store, f: Faults, a: AgentOnchain)
    requires a.uuid !in c
    ensures var before := Overwrites(c, store, f);
      store + Overwrites(c[a.uuid := a], store, f) ==
        if a.uuid !in f.unfetched && a.uuid !in f.unsaved && (a.uuid in f.unread || Lags(store, a))
        then (store + before)[a.uuid := View(a)] else store + before
    ensures Lags(store + Overwrites(c, store, f), a) == Lags(store, a)
  {
  }

  lemma NothingOverwritten(store: Store, f: Faults)
    ensures store + Overwrites(map[], store, f) == store
  {
  }

  /** The listing has the present agents of the chain, each once. */
  ghost predicate Lists(listed: seq<AgentOnchain>, c: Ledger) {
    LedgerKeys(c) && DistinctUuids(listed) && LedgerOf(listed) == c
  }

  lemma ListedAgents(listed: seq<AgentOnchain>, c: Ledger)
    requires Lists(listed, c)
    ensures forall a :: a in listed ==> a.uuid != "" && a.uuid in c && c[a.uuid] == a
  {
    forall k | 0 <= k < |listed| ensures listed[k].uuid in c && c[listed[k].uuid] == listed[k] {
      LedgerOfAt(listed, listed[k].uuid);
    }
  }

  lemma PassBegins(w: World, id: nat, listed: seq<AgentOnchain>, f: Faults)
    requires id !in w.tasks && Lists(listed, w.ledger)
    ensures Does(w, id, PassMoves(w.store, id, listed, 0, f), w.ledger, w.store, w.tasks[id := Comparing(listed)])
  {
    hide Overwrites, LedgerOf;
    ListedAgents(listed, w.ledger);
    OneMove(w, BeginPass(id, listed));
  }

  /** One more listed agent is visited. */
  lemma PassContinues(w: World, id: nat, listed: seq<AgentOnchain>, k: nat, f: Faults)
    requires id !in w.tasks && Lists(listed, w.ledger) && k < |listed|
    requires Does(w, id, PassMoves(w.store, id, listed, k, f), w.ledger,
                  w.store + Overwrites(LedgerOf(listed[..k]), w.store, f), w.tasks[id := Comparing(listed[k..])])
    ensures Does(w, id, PassMoves(w.store, id, listed, k + 1, f), w.ledger,
                 w.store + Overwrites(LedgerOf(listed[..k + 1]), w.store, f), w.tasks[id := Comparing(listed[k + 1..])])
  {
    hide Enabled, Apply, Schedule, After, HeadMoves, Lags, Overwrites, LedgerOf, View;
    var a := listed[k];
    var first := PassMoves(w.store, id, listed, k, f);
    var w1 := After(w, first);
    ListedAgents(listed, w.ledger);
    PrefixLedger(listed, k + 1);
    OneMoreOverwrite(LedgerOf(listed[..k]), w.store, f, a);
    HeadAlone(w1, id, listed[k..], w.store, f);
    assert listed[k..][1..] == listed[k + 1..];
    assert w1.tasks[id := Comparing(listed[k + 1..])] == w.tasks[id := Comparing(listed[k + 1..])];
    DoesBoth(w, id, first, w.ledger, w1.store, w1.tasks, HeadMoves(w.store, id, a, f), w.ledger,
             w.store + Overwrites(LedgerOf(listed[..k + 1]), w.store, f), w.tasks[id := Comparing(listed[k + 1..])]);
  }

  lemma {:induction false} PassPrefix(w: World, id: nat, listed: seq<AgentOnchain>, k: nat, f: Faults)
    requires id !in w.tasks && Lists(listed, w.ledger) && k <= |listed|
    ensures Does(w, id, PassMoves(w.store, id, listed, k, f), w.ledger,
                 w.store + Overwrites(LedgerOf(listed[..k]), w.store, f), w.tasks[id := Comparing(listed[k..])])
  {
    hide Does, Lists, Overwrites, PassMoves;
    if k == 0 {
      assert listed[0..] == listed && listed[..0] == [];
      NothingOverwritten(w.store, f);
      PassBegins(w, id, listed, f);
    } else {
      PassPrefix(w, id, listed, k - 1, f);
      PassContinues(w, id, listed, k - 1, f);
    }
  }

  lemma PrefixLedger(listed: seq<AgentOnchain>, k: nat)
    requires 0 < k <= |listed| && DistinctUuids(listed)
    ensures LedgerOf(listed[..k]) == LedgerOf(listed[..k - 1])[listed[k - 1].uuid := listed[k - 1]]
    ensures listed[k - 1].uuid !in LedgerOf(listed[..k - 1])
  {
    assert listed[..k][..k - 1] == listed[..k - 1];
    LedgerOfAt(listed[..k - 1], listed[k - 1].uuid);
  }

  /** A pass alone, with any faults. Its task stays behind with nothing left to visit. */
  lemma PassAlone(w: World, id: nat, listed: seq<AgentOnchain>, f: Faults)
    requires id !in w.tasks && Lists(listed, w.ledger)
    ensures Does(w, id, PassMoves(w.store, id, listed, |listed|, f), w.ledger,
                 w.store + Overwrites(w.ledger, w.store, f), w.tasks[id := Comparing([])])
  {
    hide Does, Lags, Overwrites, PassMoves;
    PassPrefix(w, id, listed, |listed|, f);
    assert listed[..|listed|] == listed && listed[|listed|..] == [];
  }

  /** When all local reads go through it is the pass of the serialized model. */
  lemma ReadablePassIsSynced(c: Ledger, store: Store, f: Faults)
    requires f.unread == {}
    ensures store + Overwrites(c, store, f) == Synced(c, store, f.unfetched + f.unsaved)
  {
    hide Lags, View;
    assert Overwrites(c, store, f) == Repairs(c, store, f.unfetched + f.unsaved);
  }

  // ---------------------------------------------------------------------
  // Whole runs
  // ---------------------------------------------------------------------

  lemma {:induction false} ListingExists(c: Ledger) returns (listed: seq<AgentOnchain>)
    requires LedgerKeys(c)
    ensures Lists(listed, c)
    decreases c.Keys
  {
    if c == map[] {
      listed := [];
    } else {
      var u :| u in c;
      var less := ListingExists(c - {u});
      assert (c - {u}).Keys == c.Keys - {u};
      listed := less + [c[u]];
      ListedAgents(less, c - {u});
      assert listed[..|listed| - 1] == less;
      assert (c - {u})[u := c[u]] == c;
    }
  }

  /** Every call of the serialized model, whatever fails in it, is a sequence of moves. */
  lemma CallAlone(w: World, id: nat, s: Replica, e: Event) returns (moves: seq<Move>)
    requires id !in w.tasks && w.ledger == s.ledger && w.store == s.store && ReplicaOk(s)
    ensures Schedule(w, moves)
    ensures After(w, moves).ledger == Step(s, e).ledger && After(w, moves).store == Step(s, e).store
    ensures After(w, moves).tasks.Keys <= w.tasks.Keys + {id}
  {
    hide Enabled, Apply, Schedule, After, FaultyGet, HybridBatch, Synced, Overwrites;
    hide ChainRegister, ChainWrite, StoreWrite, RegisterMoves, WriteMoves, ReadMoves, BatchMoves, PassMoves;
    match e
    case RegisterEvent(uid, req, txHash, now, confirmedAt, up, storeOk) =>
      moves := RegisterMoves(w.ledger, id, uid, req, txHash, now, confirmedAt, up, storeOk);
      RegisterAlone(w, id, uid, req, txHash, now, confirmedAt, up, storeOk);
    case WriteEvent(u, op, confirmedAt, now, up, storeOk) =>
      moves := WriteMoves(w, id, u, op, confirmedAt, now, up, true, storeOk);
      if u in w.store { assert w.ledger[u].uuid == u; }
      WriteAlone(w, id, u, op, confirmedAt, now, up, true, storeOk);
    case ReadEvent(u, readOk, putOk, up) =>
      moves := ReadMoves(w.ledger, w.store, id, u, readOk, putOk, up);
      ReadAlone(w, id, u, readOk, putOk, up);
    case BatchEvent(uuids, readOk, dark, unsaved) =>
      if readOk {
        assert KeysAgree(w.store);
        moves := BatchMoves(w.ledger, w.store, id, uuids, dark, unsaved);
        BatchAlone(w, id, uuids, dark, unsaved);
      } else {
        NoMoves(w);
        moves := [];
      }
    case PassEvent(failing) =>
      var listed := ListingExists(w.ledger);
      var f := Faults({}, failing, {});
      moves := PassMoves(w.store, id, listed, |listed|, f);
      PassAlone(w, id, listed, f);
      ReadablePassIsSynced(w.ledger, w.store, f);
      assert failing + {} == failing;
  }

  /** Every run of the serialized model is an interleaving of the concurrent one. */
  lemma {:induction false} RunIsInterleaving(w: World, id: nat, s: Replica, events: seq<Event>)
    returns (moves: seq<Move>)
    requires forall i :: i in w.tasks ==> i < id
    requires w.ledger == s.ledger && w.store == s.store && ReplicaOk(s) && TimelyRun(s, events)
    ensures Schedule(w, moves)
    ensures After(w, moves).ledger == Run(s, events).ledger && After(w, moves).store == Run(s, events).store
    decreases |events|
  {
    if |events| == 0 {
      moves := [];
    } else {
      hide Enabled, Apply, Schedule, After, Step, Timely, ReplicaOk;
      var first := CallAlone(w, id, s, events[0]);
      StepKeepsReplica(s, events[0]);
      var rest := RunIsInterleaving(After(w, first), id + 1, Step(s, events[0]), events[1..]);
      ScheduleConcat(w, first, rest);
      moves := first + rest;
    }
  }
}
