/** The on-chain backend (core/backend/onchain.go) over the in-memory chain adapter
    (core/chain_adapter/mock/mock.go). A chain call fails when the node does; `up` says whether it answers. */
module Onchain {
  import opened Prelude
  import opened Records
  import opened MemoryPersistence
  import opened LocalBackend

  datatype ChainState = ChainActive | ChainBanned | ChainRevoked | ChainUnchanged

  datatype AgentOnchain = AgentOnchain(
    uuid: string, owner: string, level: uint8, state: ChainState, permission: uint64,
    publicKey: string, txHash: string, updatedAt: Instant)

  /** The confirmed agents. */
  type Ledger = map<string, AgentOnchain>

  // ---------------------------------------------------------------------
  // The adapter's transactions
  // ---------------------------------------------------------------------

  /** None: the transaction fails. Some of the same agent: a successful no-op, which does not restamp.
      A level update has no lower bound and is accepted while banned. */
  function Transact(a: AgentOnchain, op: WriteOp, now: Instant): Option<AgentOnchain> {
    match op
    case Upgrade(n, _) =>
      if a.state == ChainRevoked then None else Some(a.(level := n, updatedAt := now))
    case Ban(_) =>
      if a.state == ChainRevoked then None
      else if a.state == ChainBanned then Some(a)
      else Some(a.(state := ChainBanned, updatedAt := now))
    case Unban =>
      if a.state != ChainBanned then Some(a) else Some(a.(state := ChainActive, updatedAt := now))
    case Unregister =>
      if a.state == ChainRevoked then Some(a) else Some(a.(state := ChainRevoked, updatedAt := now))
  }

  /** A write through the backend: its own argument checks, then the adapter. */
  function ChainWrite(c: Ledger, uuid: string, op: WriteOp, now: Instant): Option<Ledger> {
    if uuid == "" || (op.Upgrade? && op.newLevel == 0) || uuid !in c then None
    else match Transact(c[uuid], op, now)
      case None => None
      case Some(a) => Some(c[uuid := a])
  }

  /** When the adapter and the backend before it accept a write: the agent is confirmed, the level is not zero, and a
      revoked agent is neither raised nor banned. */
  predicate Accepts(c: Ledger, uuid: string, op: WriteOp) {
    && uuid != "" && uuid in c
    && !(op.Upgrade? && op.newLevel == 0)
    && !(c[uuid].state == ChainRevoked && (op.Upgrade? || op.Ban?))
  }

  /** What an accepted write leaves of an agent: level, state, and a fresh stamp unless it is a no-op; and nothing else
      changes. */
  ghost predicate Becomes(a: AgentOnchain, op: WriteOp, now: Instant, a': AgentOnchain) {
    && SameIdentity(a, a')
    && a'.level == (if op.Upgrade? then op.newLevel else a.level)
    && (match op
        case Upgrade(_, _) => a'.state == a.state && a'.updatedAt == now
        case Ban(_) => a'.state == ChainBanned && a'.updatedAt == if a.state == ChainBanned then a.updatedAt else now
        case Unban =>
          if a.state == ChainBanned then a'.state == ChainActive && a'.updatedAt == now
          else a'.state == a.state && a'.updatedAt == a.updatedAt
        case Unregister =>
          a'.state == ChainRevoked && a'.updatedAt == if a.state == ChainRevoked then a.updatedAt else now)
  }

  /** The adapter refuses exactly to raise or ban a revoked agent, and otherwise does what the write says. */
  lemma TransactMeans(a: AgentOnchain, op: WriteOp, now: Instant)
    ensures Transact(a, op, now).None? <==> a.state == ChainRevoked && (op.Upgrade? || op.Ban?)
    ensures Transact(a, op, now).Some? ==> Becomes(a, op, now, Transact(a, op, now).value)
  {
  }

  /** A write changes the agent that it names and no other. */
  lemma ChainWriteMeans(c: Ledger, uuid: string, op: WriteOp, now: Instant)
    ensures ChainWrite(c, uuid, op, now).Some? <==> Accepts(c, uuid, op)
    ensures Accepts(c, uuid, op) ==>
      var c' := ChainWrite(c, uuid, op, now).value;
      && c'.Keys == c.Keys && Becomes(c[uuid], op, now, c'[uuid])
      && forall v :: v in c && v != uuid ==> c'[v] == c[v]
  {
    if uuid in c { TransactMeans(c[uuid], op, now); }
  }

  function Confirmed(uid: string, req: RegisterRequest, txHash: string, now: Instant): AgentOnchain {
    AgentOnchain(uid, req.owner, req.level, ChainActive, req.permission, req.publicKey, txHash, now)
  }

  function ChainRegister(c: Ledger, uid: string, req: RegisterRequest, txHash: string, now: Instant): Option<Ledger> {
    if !WellFormed(req) || uid == "" || uid in c then None
    else Some(c[uid := Confirmed(uid, req, txHash, now)])
  }

  // ---------------------------------------------------------------------
  // Reading the chain
  // ---------------------------------------------------------------------

  function MapChainState(s: ChainState): AgentState {
    match s
    case ChainActive => Active
    case ChainBanned => Banned
    case ChainRevoked => Unregistered
    case ChainUnchanged => Registered
  }

  /** The record that GetAgentInfo builds from a confirmed agent. */
  function View(a: AgentOnchain): AgentInfo {
    AgentInfo(a.uuid, a.owner, a.level, MapChainState(a.state), a.permission, a.publicKey, a.txHash,
              a.updatedAt, a.updatedAt)
  }

  function ChainGet(c: Ledger, uuid: string): Result<AgentInfo, BackendError> {
    if uuid == "" then Err(Unavailable)
    else if uuid !in c then Err(AgentNotFound)
    else Ok(View(c[uuid]))
  }

  /** What a batch read of a quiet chain must return: the successes of the pointwise reads. */
  function ChainBatch(c: Ledger, uuids: seq<string>): map<string, AgentInfo> {
    map u | u in uuids && ChainGet(c, u).Ok? :: ChainGet(c, u).value
  }

  /** The UUIDs of a list whose reads, counted by position, do not fail. */
  function Answered(uuids: seq<string>, failing: set<nat>): seq<string> {
    if |uuids| == 0 then []
    else
      var n := |uuids| - 1;
      Answered(uuids[..n], failing) + (if n in failing then [] else [uuids[n]])
  }

  lemma {:induction false} AnsweredMembers(uuids: seq<string>, failing: set<nat>, u: string)
    ensures u in Answered(uuids, failing) <==> exists i: nat :: i < |uuids| && i !in failing && uuids[i] == u
  {
    if |uuids| > 0 {
      var n := |uuids| - 1;
      AnsweredMembers(uuids[..n], failing, u);
      if u in Answered(uuids[..n], failing) {
        var i: nat :| i < n && i !in failing && uuids[..n][i] == u;
        assert uuids[i] == u;
      }
      if i: nat :| i < |uuids| && i !in failing && uuids[i] == u {
        if i < n { assert uuids[..n][i] == u; }
      }
    }
  }

  // ---------------------------------------------------------------------
  // What the ledger keeps
  // ---------------------------------------------------------------------

  ghost predicate LedgerOk(c: Ledger, clock: Instant) {
    forall u :: u in c ==>
      c[u].uuid == u && |u| > 0 && c[u].state != ChainUnchanged && c[u].updatedAt <= clock
  }

  ghost predicate SameIdentity(a: AgentOnchain, b: AgentOnchain) {
    && a.uuid == b.uuid && a.owner == b.owner && a.permission == b.permission
    && a.publicKey == b.publicKey && a.txHash == b.txHash
  }

  /** Identities are immutable, revoked is terminal, a transaction that changes anything restamps. */
  lemma TransactLaws(a: AgentOnchain, op: WriteOp, now: Instant)
    requires Transact(a, op, now).Some?
    ensures var a' := Transact(a, op, now).value;
      && SameIdentity(a, a')
      && (a.state == ChainRevoked ==> a' == a)
      && (a' == a || a'.updatedAt == now)
      && (a.state != ChainUnchanged ==> a'.state != ChainUnchanged)
  {
  }

  /** The adapter lowers a level exactly when an accepted update asks for a lower one. */
  lemma LevelDropsIff(a: AgentOnchain, op: WriteOp, now: Instant)
    ensures (Transact(a, op, now).Some? && Transact(a, op, now).value.level < a.level)
       <==> (op.Upgrade? && op.newLevel < a.level && a.state != ChainRevoked)
  {
  }

  lemma ChainWriteKeepsLedger(c: Ledger, clock: Instant, u: string, op: WriteOp, now: Instant)
    requires LedgerOk(c, clock) && clock < now && ChainWrite(c, u, op, now).Some?
    ensures LedgerOk(ChainWrite(c, u, op, now).value, now)
    ensures ChainWrite(c, u, op, now).value.Keys == c.Keys
  {
    TransactLaws(c[u], op, now);
  }

  // ---------------------------------------------------------------------
  // The backend as an object
  // ---------------------------------------------------------------------

  class OnchainBackend {
    /** The adapter's agents. */
    var ledger: Ledger

    constructor ()
      ensures ledger == map[]
    {
      ledger := map[];
    }

    /** The credential is stamped `now`, before the adapter stamps the agent `confirmedAt`. */
    method RegisterAgent(uid: string, req: RegisterRequest, txHash: string, now: Instant, confirmedAt: Instant,
                         up: bool)
      returns (res: Result<AgentCredential, BackendError>)
      modifies this
      ensures res.Ok? <==> up && ChainRegister(old(ledger), uid, req, txHash, confirmedAt).Some?
      ensures ledger == if res.Ok? then ChainRegister(old(ledger), uid, req, txHash, confirmedAt).value else old(ledger)
      ensures res.Ok? ==> res.value == AgentCredential(
        uid, req.owner, req.level, Active, req.permission, req.publicKey, txHash, now, now)
      ensures res.Ok? <==>
        up && uid != "" && uid !in old(ledger) && req.owner != "" && req.level != 0 && req.publicKey != ""
      ensures res.Ok? ==> ledger == old(ledger)[uid := AgentOnchain(
        uid, req.owner, req.level, ChainActive, req.permission, req.publicKey, txHash, confirmedAt)]
      ensures res.Err? ==>
        res.error == if req.owner == "" || req.level == 0 || req.publicKey == "" then Unavailable else ChainFailure
    {
      if req.owner == "" || req.level == 0 || req.publicKey == "" {
        return Err(Unavailable);
      }
      if !up || uid == "" || uid in ledger {
        return Err(ChainFailure);
      }
      ledger := ledger[uid := AgentOnchain(
        uid, req.owner, req.level, ChainActive, req.permission, req.publicKey, txHash, confirmedAt)];
      res := Ok(AgentCredential(
        uid, req.owner, req.level, Active, req.permission, req.publicKey, txHash, now, now));
    }

    /** UpdateAgentLevel, BanAgent, UnbanAgent and UnregisterAgent differ only in the transaction they send. */
    method Write(uuid: string, op: WriteOp, now: Instant, up: bool) returns (res: Result<(), BackendError>)
      modifies this
      ensures res.Ok? <==> up && ChainWrite(old(ledger), uuid, op, now).Some?
      ensures ledger == if res.Ok? then ChainWrite(old(ledger), uuid, op, now).value else old(ledger)
      ensures res.Ok? <==> up && Accepts(old(ledger), uuid, op)
      ensures res.Ok? ==>
        && ledger.Keys == old(ledger).Keys && Becomes(old(ledger)[uuid], op, now, ledger[uuid])
        && forall v :: v in ledger && v != uuid ==> ledger[v] == old(ledger)[v]
      ensures res.Err? ==>
        res.error == if uuid == "" then Unavailable
                     else if op.Upgrade? && op.newLevel == 0 then InvalidState else ChainFailure
    {
      ChainWriteMeans(ledger, uuid, op, now);
      if uuid == "" {
        return Err(Unavailable);
      }
      if op.Upgrade? && op.newLevel == 0 {
        return Err(InvalidState);
      }
      if !up || uuid !in ledger {
        return Err(ChainFailure);
      }
      match Transact(ledger[uuid], op, now) {
        case None => return Err(ChainFailure);
        case Some(a) => ledger := ledger[uuid := a];
      }
      res := Ok(());
    }

    method GetAgentInfo(uuid: string, up: bool) returns (rec: Record?, error: BackendError)
      ensures rec != null <==> up && ChainGet(ledger, uuid).Ok?
      ensures rec != null ==> fresh(rec) && rec.info == ChainGet(ledger, uuid).value
      ensures rec != null <==> up && uuid != "" && uuid in ledger
      ensures rec != null ==>
        var a := ledger[uuid];
        rec.info == AgentInfo(
          a.uuid, a.owner, a.level,
          if a.state == ChainActive then Active else if a.state == ChainBanned then Banned
          else if a.state == ChainRevoked then Unregistered else Registered,
          a.permission, a.publicKey, a.txHash, a.updatedAt, a.updatedAt)
      ensures rec == null ==>
        error == if uuid == "" then Unavailable else if up then AgentNotFound else ChainFailure
      ensures rec == null ==> Err(error) == if up || uuid == "" then ChainGet(ledger, uuid) else Err(ChainFailure)
      ensures ledger == old(ledger)
    {
      rec, error := null, ChainFailure;
      if uuid == "" {
        error := Unavailable;
      } else if up {
        if uuid in ledger {
          rec := new Record(View(ledger[uuid]));
        } else {
          error := AgentNotFound;
        }
      }
    }

    /** Copies of all confirmed agents. The adapter sorts them; no caller depends on the order. */
    method ListAll() returns (all: seq<AgentOnchain>)
      requires forall u :: u in ledger ==> ledger[u].uuid == u
      ensures forall a :: a in all <==> a.uuid in ledger && ledger[a.uuid] == a
      ensures forall i, j :: 0 <= i < j < |all| ==> all[i].uuid != all[j].uuid
    {
      all := [];
      var todo := ledger.Keys;
      while todo != {}
        invariant todo <= ledger.Keys
        invariant forall a :: a in all <==> a.uuid in ledger.Keys - todo && ledger[a.uuid] == a
        invariant forall i, j :: 0 <= i < j < |all| ==> all[i].uuid != all[j].uuid
        decreases |todo|
      {
        var u :| u in todo;
        all := all + [ledger[u]];
        todo := todo - {u};
      }
    }

    /** The records of a batch read; the reads at the positions `failing` meet an outage. The source reads
        concurrently; module OnchainBatch proves that every interleaving returns this map. */
    method BatchGetAgentInfo(uuids: seq<string>, failing: set<nat>) returns (out: map<string, Record>)
      ensures out.Keys == ChainBatch(ledger, Answered(uuids, failing)).Keys
      ensures forall u :: u in out ==>
        fresh(out[u]) && out[u].info == ChainBatch(ledger, Answered(uuids, failing))[u]
    {
      out := map[];
      for k := 0 to |uuids|
        invariant forall u :: u in out <==> u in Answered(uuids[..k], failing) && ChainGet(ledger, u).Ok?
        invariant forall u :: u in out ==> fresh(out[u]) && Ok(out[u].info) == ChainGet(ledger, u)
      {
        assert uuids[..k + 1][..k] == uuids[..k];
        var info, _ := GetAgentInfo(uuids[k], k !in failing);
        if info != null {
          out := out[uuids[k] := info];
        }
      }
      assert uuids[..|uuids|] == uuids;
    }
  }
}
