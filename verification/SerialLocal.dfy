/** The two models of the off-chain backend agree: a call that nobody interrupts does in the interleaved model
    (InterleavedAudit) what the whole call does in the one-call-at-a-time model (AuditTrail), and so every serialized
    run is one of the interleavings. */
module SerialLocal {
  import opened Prelude
  import opened Records
  import opened MemoryPersistence
  import opened LocalBackend
  import opened AuditTrail
  import opened InterleavedAudit

  /** Nothing is in progress. */
  ghost predicate Quiet(w: World) { w.tasks == map[] && w.mutex == None && w.inProgress == map[] }

  /** The moves of a call, all by call `id`; a write stops where it has nothing to do, and both where the put fails. */
  function MovesOf(s: LocalState, id: nat, c: Call, putOk: bool): seq<Move> {
    match c
    case RegisterCall(uid, req, now) =>
      if !WellFormed(req) then []
      else [BeginRegister(id, uid, req, now), PutRegister(id, putOk)] + if putOk then [LogRegister(id)] else []
    case WriteCall(u, op, now) =>
      [Lock(id, u, op), ReadAgent(id)] + if u in s.store then UpdateMoves(s.store[u], id, op, now, putOk) else []
  }

  function UpdateMoves(r: AgentInfo, id: nat, op: WriteOp, now: Instant, putOk: bool): seq<Move> {
    [PutWrite(id, now, putOk)] + if putOk && Applies(op, r) then [LogWrite(id)] else []
  }

  lemma {:induction false} ScheduleConcat(w: World, first: seq<Move>, second: seq<Move>)
    requires Schedule(w, first) && Schedule(After(w, first), second)
    ensures Schedule(w, first + second) && After(w, first + second) == After(After(w, first), second)
    decreases |first|
  {
    hide Enabled, Apply;
    if |first| == 0 {
      assert first + second == second;
    } else {
      assert (first + second)[1..] == first[1..] + second;
      ScheduleConcat(Apply(w, first[0]), first[1..], second);
    }
  }

  lemma MoreMoves(w: World, first: seq<Move>, m: Move)
    requires Schedule(w, first) && Enabled(After(w, first), m)
    ensures Schedule(w, first + [m]) && After(w, first + [m]) == Apply(After(w, first), m)
  {
    hide Enabled, Apply;
    assert [m][1..] == [];
    ScheduleConcat(w, first, [m]);
  }

  lemma NoMoves(w: World)
    ensures Schedule(w, []) && After(w, []) == w
  {
  }

  lemma RegisterAlone(w: World, id: nat, uid: string, req: RegisterRequest, now: Instant, putOk: bool)
    requires Quiet(w) && uid != "" && uid !in w.state.store && w.clock < now && WellFormed(req)
    ensures var moves := MovesOf(w.state, id, RegisterCall(uid, req, now), putOk);
      && Schedule(w, moves) && Quiet(After(w, moves))
      && After(w, moves).state == (if putOk then LocalRegister(w.state, uid, req, now).state else w.state)
      && After(w, moves).clock == now
  {
    hide IndexPut, LogsAppend;
    var a, b := BeginRegister(id, uid, req, now), PutRegister(id, putOk);
    NoMoves(w);
    MoreMoves(w, [], a);
    MoreMoves(w, [] + [a], b);
    assert [] + [a] + [b] == [a, b];
    if putOk { MoreMoves(w, [a, b], LogRegister(id)); } else { assert [a, b] + [] == [a, b]; }
  }

  /** The world while call `id` holds the mutex to write agent u, whose record it has read. */
  function Holding(w: World, id: nat, u: string, op: WriteOp): World
    requires u in w.state.store
  {
    w.(tasks := map[id := Updating(u, op, w.state.store[u])], mutex := Some(id))
  }

  lemma ReadingAlone(w: World, id: nat, u: string, op: WriteOp)
    requires Quiet(w)
    ensures Schedule(w, [Lock(id, u, op), ReadAgent(id)])
    ensures After(w, [Lock(id, u, op), ReadAgent(id)]) == if u in w.state.store then Holding(w, id, u, op) else w
  {
    hide IndexPut, LogsAppend, LocalVerdict;
    var a, b := Lock(id, u, op), ReadAgent(id);
    NoMoves(w);
    MoreMoves(w, [], a);
    MoreMoves(w, [] + [a], b);
    assert [] + [a] + [b] == [a, b];
  }

  lemma UpdatingAlone(w: World, id: nat, u: string, op: WriteOp, now: Instant, putOk: bool)
    requires Quiet(w) && u in w.state.store && w.clock < now
    ensures var w1 := Holding(w, id, u, op);
      var moves := UpdateMoves(w.state.store[u], id, op, now, putOk);
      && Schedule(w1, moves) && Quiet(After(w1, moves)) && After(w1, moves).clock == now
      && var v := LocalVerdict(op, w.state.store[u], now);
         After(w1, moves).state == if putOk && v.Applied? then PutAndLog(w.state, v.rec, v.entry) else w.state
  {
    hide IndexPut, LogsAppend, LocalVerdict, Applies;
    var w1 := Holding(w, id, u, op);
    VerdictMeans(op, w.state.store[u], now);
    NoMoves(w1);
    var put := PutWrite(id, now, putOk);
    MoreMoves(w1, [], put);
    assert [] + [put] == [put];
    if putOk && Applies(op, w.state.store[u]) {
      MoreMoves(w1, [put], LogWrite(id));
    } else {
      assert [put] + [] == [put];
    }
  }

  lemma WriteAlone(w: World, id: nat, u: string, op: WriteOp, now: Instant, putOk: bool)
    requires Quiet(w) && KeysAgree(w.state.store) && w.clock < now
    ensures var moves := MovesOf(w.state, id, WriteCall(u, op, now), putOk);
      && Schedule(w, moves) && Quiet(After(w, moves))
      && After(w, moves).state == (if putOk then LocalWrite(w.state, u, op, now).state else w.state)
      && After(w, moves).clock <= now
  {
    hide Schedule, After, UpdateMoves, LocalVerdict, PutAndLog;
    ReadingAlone(w, id, u, op);
    var first := [Lock(id, u, op), ReadAgent(id)];
    if u in w.state.store {
      UpdatingAlone(w, id, u, op, now, putOk);
      ScheduleConcat(w, first, UpdateMoves(w.state.store[u], id, op, now, putOk));
    } else {
      assert first + [] == first;
    }
  }

  /** Every call of the serialized model is a sequence of moves; one whose put fails changes nothing. */
  lemma CallAlone(w: World, id: nat, c: Call, putOk: bool)
    requires Quiet(w) && KeysAgree(w.state.store) && Admissible(w.state, w.clock, c)
    ensures var moves := MovesOf(w.state, id, c, putOk);
      && Schedule(w, moves) && Quiet(After(w, moves)) && After(w, moves).clock <= c.now
      && After(w, moves).state == if putOk then Perform(w.state, c).state else w.state
  {
    hide Schedule, After, Quiet;
    match c
    case RegisterCall(uid, req, now) =>
      if WellFormed(req) { RegisterAlone(w, id, uid, req, now, putOk); } else { NoMoves(w); }
    case WriteCall(u, op, now) => WriteAlone(w, id, u, op, now, putOk);
  }

  /** Every run of the serialized model is an interleaving of the concurrent one. */
  lemma {:induction false} RunIsInterleaving(w: World, clock: Instant, born: Births, calls: seq<Call>)
    returns (moves: seq<Move>)
    requires Quiet(w) && w.clock <= clock && Audited(w.state, born, clock) && Clocked(w.state, clock, calls)
    ensures Schedule(w, moves) && Quiet(After(w, moves)) && After(w, moves).state == Run(w.state, calls)
    decreases |calls|
  {
    hide Schedule, After, Quiet, MovesOf, Perform;
    if |calls| == 0 {
      NoMoves(w);
      moves := [];
    } else {
      var c := calls[0];
      CallAlone(w, 0, c, true);
      CallKeepsAudit(w.state, born, clock, c);
      var first := MovesOf(w.state, 0, c, true);
      var w1 := After(w, first);
      var rest := RunIsInterleaving(w1, c.now, BirthsAfter(born, c), calls[1..]);
      ScheduleConcat(w, first, rest);
      moves := first + rest;
    }
  }
}
