/** The off-chain backend (core/backend/local.go) over the in-memory store. Each call is given first as a
    function on the store's value, then as a method that reads, changes and puts back a copy. */
module LocalBackend {
  import opened Prelude
  import opened Records
  import opened MemoryPersistence

  datatype LocalState = LocalState(store: Store, index: OwnerIndex, logs: Logs)

  // ---------------------------------------------------------------------
  // One write on one record
  // ---------------------------------------------------------------------

  /** What a write does to the copy of a record that it read. */
  datatype Verdict = Applied(rec: AgentInfo, entry: ChangeLog) | NoOp | Refused(error: BackendError)

  function LevelText(n: uint8): string { "level=" + Decimal(n) }

  /** Any strict increase is accepted, not only +1. */
  function UpgradeVerdict(r: AgentInfo, newLevel: uint8, reason: string, now: Instant): Verdict {
    if r.state == Banned || r.state == Unregistered then Refused(InvalidState)
    else if newLevel <= r.level then Refused(InvalidState)
    else Applied(r.(level := newLevel, updatedAt := now),
                 ChangeLog(r.uuid, UpgradeAction, "", LevelText(r.level), LevelText(newLevel), reason, "", now))
  }

  function BanVerdict(r: AgentInfo, reason: string, now: Instant): Verdict {
    if r.state == Banned then NoOp
    else if r.state == Unregistered then Refused(InvalidState)
    else Applied(r.(state := Banned, updatedAt := now),
                 ChangeLog(r.uuid, BanAction, "", StateText(r.state), StateText(Banned), reason, "", now))
  }

  function UnbanVerdict(r: AgentInfo, now: Instant): Verdict {
    if r.state != Banned then NoOp
    else Applied(r.(state := Active, updatedAt := now),
                 ChangeLog(r.uuid, UnbanAction, "", StateText(Banned), StateText(Active), "", "", now))
  }

  function UnregisterVerdict(r: AgentInfo, now: Instant): Verdict {
    if r.state == Unregistered then NoOp
    else Applied(r.(state := Unregistered, updatedAt := now),
                 ChangeLog(r.uuid, UnregisterAction, "", StateText(r.state), StateText(Unregistered), "", "", now))
  }

  function LocalVerdict(op: WriteOp, r: AgentInfo, now: Instant): Verdict {
    match op
    case Upgrade(n, reason) => UpgradeVerdict(r, n, reason, now)
    case Ban(reason) => BanVerdict(r, reason, now)
    case Unban => UnbanVerdict(r, now)
    case Unregister => UnregisterVerdict(r, now)
  }

  // ---------------------------------------------------------------------
  // One call on the whole store
  // ---------------------------------------------------------------------

  datatype Outcome = Outcome(state: LocalState, result: Result<(), BackendError>)

  function PutAndLog(s: LocalState, r: AgentInfo, e: ChangeLog): LocalState {
    LocalState(s.store[r.uuid := r], IndexPut(s.index, r.owner, r.uuid), LogsAppend(s.logs, e))
  }

  function LocalWrite(s: LocalState, uuid: string, op: WriteOp, now: Instant): Outcome {
    if op.Upgrade? && uuid == "" then Outcome(s, Err(Unavailable))
    else if uuid !in s.store then Outcome(s, Err(AgentNotFound))
    else match LocalVerdict(op, s.store[uuid], now)
      case Applied(r, e) => Outcome(PutAndLog(s, r, e), Ok(()))
      case NoOp => Outcome(s, Ok(()))
      case Refused(err) => Outcome(s, Err(err))
  }

  // What the calls do, field by field and without the functions above.

  lemma StateTexts()
    ensures StateText(Registered) == "registered" && StateText(Active) == "active"
    ensures StateText(Banned) == "banned" && StateText(Unregistered) == "unregistered"
  {
  }

  /** The write changes the record: only live agents are raised, and only upwards, or banned; only banned ones are
      unbanned; unregistered ones are not unregistered again. */
  predicate Applies(op: WriteOp, r: AgentInfo) {
    match op
    case Upgrade(n, _) => r.state != Banned && r.state != Unregistered && r.level < n
    case Ban(_) => r.state != Banned && r.state != Unregistered
    case Unban => r.state == Banned
    case Unregister => r.state != Unregistered
  }

  /** The write is an error: it does not apply, and asking for what is already so does not excuse it. */
  predicate Refuses(op: WriteOp, r: AgentInfo) {
    !Applies(op, r) && (op.Upgrade? || (op.Ban? && r.state == Unregistered))
  }

  /** The record after the write: level, state and stamp. */
  function Rewritten(op: WriteOp, r: AgentInfo, now: Instant): AgentInfo {
    AgentInfo(r.uuid, r.owner, if op.Upgrade? then op.newLevel else r.level,
              if op.Ban? then Banned else if op.Unban? then Active
              else if op.Unregister? then Unregistered else r.state,
              r.permission, r.publicKey, r.txHash, r.registeredAt, now)
  }

  /** The entry of the write: no actor and no hash, the values before and after, and the reason of upgrades and bans. */
  function EntryFor(op: WriteOp, r: AgentInfo, now: Instant): ChangeLog {
    ChangeLog(
      r.uuid,
      match op { case Upgrade(_, _) => UpgradeAction case Ban(_) => BanAction case Unban => UnbanAction
                 case Unregister => UnregisterAction },
      "",
      if op.Upgrade? then "level=" + Decimal(r.level) else StateText(r.state),
      match op { case Upgrade(n, _) => "level=" + Decimal(n) case Ban(_) => "banned" case Unban => "active"
                 case Unregister => "unregistered" },
      if op.Upgrade? || op.Ban? then op.reason else "",
      "", now)
  }

  lemma VerdictMeans(op: WriteOp, r: AgentInfo, now: Instant)
    ensures var v := LocalVerdict(op, r, now);
      && (v.Applied? <==> Applies(op, r)) && (v.Refused? <==> Refuses(op, r))
      && (v.Applied? ==> v.rec == Rewritten(op, r, now) && v.entry == EntryFor(op, r, now))
      && (v.Refused? ==> v.error == InvalidState)
  {
    StateTexts();
  }

  /** One record is stored and indexed, and one entry appended to its agent's log. */
  ghost predicate LoggedPut(s: LocalState, r: AgentInfo, e: ChangeLog, s': LocalState) {
    && s'.store == s.store[r.uuid := r]
    && LogsOf(s'.logs, e.uuid) == LogsOf(s.logs, e.uuid) + [e]
    && (forall w :: w != e.uuid ==> LogsOf(s'.logs, w) == LogsOf(s.logs, w))
    && (forall owner, u ::
          u in Indexed(s'.index, owner) <==> u in Indexed(s.index, owner) || (owner == r.owner && u == r.uuid))
  }

  lemma PutAndLogMeans(s: LocalState, r: AgentInfo, e: ChangeLog)
    ensures LoggedPut(s, r, e, PutAndLog(s, r, e))
  {
    var s' := PutAndLog(s, r, e);
    forall owner, u
      ensures u in Indexed(s'.index, owner) <==> u in Indexed(s.index, owner) || (owner == r.owner && u == r.uuid)
    {
      IndexPutAdds(s.index, r.owner, r.uuid, owner, u);
    }
  }

  /** What a write does and answers. */
  ghost predicate WriteIs(s: LocalState, uuid: string, op: WriteOp, now: Instant, s': LocalState,
                          res: Result<(), BackendError>)
  {
    if op.Upgrade? && uuid == "" then s' == s && res == Err(Unavailable)
    else if uuid !in s.store then s' == s && res == Err(AgentNotFound)
    else if Refuses(op, s.store[uuid]) then s' == s && res == Err(InvalidState)
    else if Applies(op, s.store[uuid]) then
      && res == Ok(())
      && LoggedPut(s, Rewritten(op, s.store[uuid], now), EntryFor(op, s.store[uuid], now), s')
    else s' == s && res == Ok(())
  }

  lemma LocalWriteMeans(s: LocalState, uuid: string, op: WriteOp, now: Instant)
    ensures WriteIs(s, uuid, op, now, LocalWrite(s, uuid, op, now).state, LocalWrite(s, uuid, op, now).result)
  {
    hide LocalVerdict, Applies, Refuses, Rewritten, EntryFor, LoggedPut, PutAndLog;
    if uuid in s.store {
      VerdictMeans(op, s.store[uuid], now);
      PutAndLogMeans(s, Rewritten(op, s.store[uuid], now), EntryFor(op, s.store[uuid], now));
    }
  }

  predicate WellFormed(req: RegisterRequest) {
    req.owner != "" && req.level != 0 && req.publicKey != ""
  }

  function Registration(uid: string, req: RegisterRequest, now: Instant): AgentInfo {
    AgentInfo(uid, req.owner, req.level, Registered, req.permission, req.publicKey, "", now, now)
  }

  function RegisterEntry(uid: string, req: RegisterRequest, now: Instant): ChangeLog {
    ChangeLog(uid, RegisterAction, req.owner, "", StateText(Registered), "", "", now)
  }

  function LocalRegister(s: LocalState, uid: string, req: RegisterRequest, now: Instant): Outcome {
    if !WellFormed(req) then Outcome(s, Err(Unavailable))
    else Outcome(PutAndLog(s, Registration(uid, req, now), RegisterEntry(uid, req, now)), Ok(()))
  }

  // ---------------------------------------------------------------------
  // The backend as an object
  // ---------------------------------------------------------------------

  class LocalBackend {
    const pers: MemoryPersistence

    constructor (pers: MemoryPersistence)
      ensures this.pers == pers
    {
      this.pers := pers;
    }

    ghost predicate Valid()
      reads pers, pers.owned
    {
      pers.Valid()
    }

    /** The value that the call functions above speak about. */
    ghost function State(): LocalState
      reads pers
    {
      LocalState(pers.contents, pers.byOwner, pers.logs)
    }

    /** The generated UUID is an argument; that it is new is what generateUUIDv7 promises. */
    method RegisterAgent(uid: string, req: RegisterRequest, now: Instant)
      returns (res: Result<AgentCredential, BackendError>)
      requires Valid() && uid != "" && uid !in pers.agents
      modifies pers
      ensures Valid()
      ensures State() == LocalRegister(old(State()), uid, req, now).state
      ensures res.Ok? <==> req.owner != "" && req.level != 0 && req.publicKey != ""
      ensures res.Err? ==> res.error == Unavailable && State() == old(State())
      ensures res.Ok? ==> LoggedPut(
        old(State()),
        AgentInfo(uid, req.owner, req.level, Registered, req.permission, req.publicKey, "", now, now),
        ChangeLog(uid, RegisterAction, req.owner, "", "registered", "", "", now),
        State())
      ensures res.Ok? ==> res.value == AgentCredential(
        uid, req.owner, req.level, Registered, req.permission, req.publicKey, "", now, now)
    {
      if req.owner == "" || req.level == 0 || req.publicKey == "" {
        return Err(Unavailable);
      }
      var info := new Record(AgentInfo(
        uid, req.owner, req.level, Registered, req.permission, req.publicKey, "", now, now));
      PutBack(info, ChangeLog(uid, RegisterAction, req.owner, "", StateText(Registered), "", "", now));
      PutAndLogMeans(old(State()), info.info, RegisterEntry(uid, req, now));
      res := Ok(AgentCredential(
        uid, req.owner, req.level, Registered, req.permission, req.publicKey, "", now, now));
    }

    method GetAgentInfo(uuid: string) returns (rec: Record?)
      requires Valid()
      ensures State() == old(State())
      ensures rec == null <==> uuid !in State().store
      ensures rec != null ==> fresh(rec) && rec.info == State().store[uuid]
    {
      if uuid == "" {
        assert KeysAgree(pers.contents);
        return null;
      }
      rec := pers.GetAgent(uuid);
    }

    method UpdateAgentLevel(uuid: string, newLevel: uint8, reason: string, now: Instant)
      returns (res: Result<(), BackendError>)
      requires Valid()
      modifies pers
      ensures Valid()
      ensures Outcome(State(), res) == LocalWrite(old(State()), uuid, Upgrade(newLevel, reason), now)
    {
      hide LevelText;
      if uuid == "" {
        return Err(Unavailable);
      }
      var info := pers.GetAgent(uuid);
      if info == null {
        return Err(AgentNotFound);
      }
      if info.info.state == Banned || info.info.state == Unregistered {
        return Err(InvalidState);
      }
      var oldLevel := info.info.level;
      if newLevel <= oldLevel {
        return Err(InvalidState);
      }
      info.info := info.info.(level := newLevel);
      info.info := info.info.(updatedAt := now);
      PutBack(info, ChangeLog(uuid, UpgradeAction, "", LevelText(oldLevel), LevelText(newLevel), reason, "", now));
      res := Ok(());
    }

    method BanAgent(uuid: string, reason: string, now: Instant) returns (res: Result<(), BackendError>)
      requires Valid()
      modifies pers
      ensures Valid()
      ensures Outcome(State(), res) == LocalWrite(old(State()), uuid, Ban(reason), now)
    {
      var info := pers.GetAgent(uuid);
      if info == null {
        return Err(AgentNotFound);
      }
      if info.info.state == Banned {
        return Ok(());
      }
      if info.info.state == Unregistered {
        return Err(InvalidState);
      }
      var oldState := info.info.state;
      info.info := info.info.(state := Banned);
      info.info := info.info.(updatedAt := now);
      PutBack(info, ChangeLog(uuid, BanAction, "", StateText(oldState), StateText(Banned), reason, "", now));
      res := Ok(());
    }

    method UnbanAgent(uuid: string, now: Instant) returns (res: Result<(), BackendError>)
      requires Valid()
      modifies pers
      ensures Valid()
      ensures Outcome(State(), res) == LocalWrite(old(State()), uuid, Unban, now)
    {
      var info := pers.GetAgent(uuid);
      if info == null {
        return Err(AgentNotFound);
      }
      if info.info.state != Banned {
        return Ok(());
      }
      info.info := info.info.(state := Active);
      info.info := info.info.(updatedAt := now);
      PutBack(info, ChangeLog(uuid, UnbanAction, "", StateText(Banned), StateText(Active), "", "", now));
      res := Ok(());
    }

    method UnregisterAgent(uuid: string, now: Instant) returns (res: Result<(), BackendError>)
      requires Valid()
      modifies pers
      ensures Valid()
      ensures Outcome(State(), res) == LocalWrite(old(State()), uuid, Unregister, now)
    {
      var info := pers.GetAgent(uuid);
      if info == null {
        return Err(AgentNotFound);
      }
      if info.info.state == Unregistered {
        return Ok(());
      }
      var oldState := info.info.state;
      info.info := info.info.(state := Unregistered);
      info.info := info.info.(updatedAt := now);
      PutBack(info, ChangeLog(uuid, UnregisterAction, "", StateText(oldState), StateText(Unregistered), "", "", now));
      res := Ok(());
    }

    /** The common tail of the four writes: put the changed copy, then append the audit entry. */
    method PutBack(info: Record, entry: ChangeLog)
      requires Valid() && info.info.uuid != "" && entry.uuid == info.info.uuid
      modifies pers
      ensures Valid()
      ensures State() == PutAndLog(old(State()), info.info, entry)
    {
      var _ := pers.PutAgent(info);
      var _ := pers.AppendLog(entry);
    }

    /** The audit log, newest first: a permutation of what was appended. Entries whose stamps increase
        strictly come back exactly reversed, whichever sort is used. */
    method GetChangeLogs(uuid: string) returns (res: Result<seq<ChangeLog>, BackendError>)
      ensures res.Err? <==> uuid == ""
      ensures res.Ok? ==>
        && multiset(res.value) == multiset(LogsOf(pers.logs, uuid))
        && NewestFirst(res.value)
      ensures res.Ok? && StampsIncrease(LogsOf(pers.logs, uuid)) ==>
        res.value == Reversed(LogsOf(pers.logs, uuid))
    {
      if uuid == "" {
        return Err(Unavailable);
      }
      var logs := pers.ListLogs(uuid, 0);
      var sorted := SortSlice(logs, (a: ChangeLog, b: ChangeLog) => a.occurredAt > b.occurredAt);
      assert NewestFirst(sorted) by {
        var less := (a: ChangeLog, b: ChangeLog) => a.occurredAt > b.occurredAt;
        forall i, j | 0 <= i < j < |sorted| ensures sorted[i].occurredAt >= sorted[j].occurredAt {
          assert !less(sorted[j], sorted[i]);
        }
      }
      if StampsIncrease(logs) {
        NewestFirstIsReversal(logs, sorted);
      }
      res := Ok(sorted);
    }

    method BatchGetAgentInfo(uuids: seq<string>) returns (out: map<string, Record>)
      requires Valid()
      ensures out.Keys == Hits(pers.contents, uuids).Keys
      ensures forall u :: u in out ==> fresh(out[u]) && out[u].info == pers.contents[u]
    {
      if |uuids| == 0 {
        return map[];
      }
      out := pers.BatchGet(uuids);
    }
  }

  // ---------------------------------------------------------------------
  // The audit log in time order
  // ---------------------------------------------------------------------

  ghost predicate NewestFirst(log: seq<ChangeLog>) {
    forall i, j :: 0 <= i < j < |log| ==> log[i].occurredAt >= log[j].occurredAt
  }

  ghost predicate StampsIncrease(log: seq<ChangeLog>) {
    forall i, j :: 0 <= i < j < |log| ==> log[i].occurredAt < log[j].occurredAt
  }

  function Reversed<T>(s: seq<T>): seq<T> {
    if |s| == 0 then [] else Reversed(s[1..]) + [s[0]]
  }

  /** Any newest-first permutation of a log with strictly increasing stamps is its reversal. */
  lemma {:induction false} NewestFirstIsReversal(log: seq<ChangeLog>, out: seq<ChangeLog>)
    requires StampsIncrease(log) && NewestFirst(out)
    requires multiset(out) == multiset(log)
    ensures out == Reversed(log)
  {
    if |log| == 0 {
      assert |multiset(out)| == |out| && |multiset(log)| == |log|;
    } else {
      OldestIsLast(log, out);
      var front := out[..|out| - 1];
      assert out == front + [log[0]];
      WithoutFirst(log);
      WithoutLast(out);
      NewestFirstIsReversal(log[1..], front);
    }
  }

  lemma WithoutFirst<T>(s: seq<T>)
    requires |s| > 0
    ensures multiset(s[1..]) == multiset(s) - multiset{s[0]}
  {
    assert s == [s[0]] + s[1..];
  }

  lemma WithoutLast<T>(s: seq<T>)
    requires |s| > 0
    ensures multiset(s[..|s| - 1]) == multiset(s) - multiset{s[|s| - 1]}
  {
    assert s == s[..|s| - 1] + [s[|s| - 1]];
  }

  lemma OldestIsLast(log: seq<ChangeLog>, out: seq<ChangeLog>)
    requires |log| > 0 && StampsIncrease(log) && NewestFirst(out)
    requires multiset(out) == multiset(log)
    ensures |out| == |log| && out[|out| - 1] == log[0]
  {
    assert |multiset(out)| == |out| && |multiset(log)| == |log|;
    var last := out[|out| - 1];
    assert last in multiset(log) && log[0] in multiset(out);
    var i :| 0 <= i < |log| && log[i] == last;
    var j :| 0 <= j < |out| && out[j] == log[0];
    assert out[j].occurredAt >= last.occurredAt;
  }
}
