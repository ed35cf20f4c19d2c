/** Whole runs of the off-chain backend: the audit log replays to the store, the owner index stays exact,
    lifecycles follow the transition table and unregistered agents never change again. */
module AuditTrail {
  import opened Prelude
  import opened Records
  import opened StateMachine
  import opened MemoryPersistence
  import opened LocalBackend

  // ---------------------------------------------------------------------
  // Runs
  // ---------------------------------------------------------------------

  datatype Call = RegisterCall(uid: string, req: RegisterRequest, now: Instant)
                | WriteCall(uuid: string, op: WriteOp, now: Instant)

  function Perform(s: LocalState, c: Call): Outcome {
    match c
    case RegisterCall(uid, req, now) => LocalRegister(s, uid, req, now)
    case WriteCall(uuid, op, now) => LocalWrite(s, uuid, op, now)
  }

  function Run(s: LocalState, calls: seq<Call>): LocalState
    decreases |calls|
  {
    if |calls| == 0 then s else Run(Perform(s, calls[0]).state, calls[1..])
  }

  const EMPTY := LocalState(map[], map[], map[])

  /** One call at a later instant; a generated UUID is new. */
  ghost predicate Admissible(s: LocalState, clock: Instant, c: Call) {
    c.now > clock && (c.RegisterCall? ==> c.uid != "" && c.uid !in s.store)
  }

  /** A run under a strictly increasing clock with new UUIDs. */
  ghost predicate Clocked(s: LocalState, clock: Instant, calls: seq<Call>)
    decreases |calls|
  {
    |calls| > 0 ==>
      Admissible(s, clock, calls[0]) && Clocked(Perform(s, calls[0]).state, calls[0].now, calls[1..])
  }

  // ---------------------------------------------------------------------
  // Replaying a log
  // ---------------------------------------------------------------------

  datatype Replayed = Blank | Live(state: AgentState, level: uint8) | Broken

  function ParseLevel(text: string): Option<uint8> {
    if |text| > 6 && text[..6] == "level=" && 0 <= ParseDecimal(text[6..]) < 256
    then Some(ParseDecimal(text[6..])) else None
  }

  lemma LevelTextParses(n: uint8)
    ensures ParseLevel(LevelText(n)) == Some(n)
  {
    DecimalRoundTrip(n);
    assert LevelText(n)[6..] == Decimal(n);
  }

  /** One entry on top of what came before it. An entry whose old value is not the value before it, or
      that is not a legal change, breaks the replay. The register entry does not carry the level. */
  function ReplayEntry(acc: Replayed, e: ChangeLog, level0: uint8): Replayed {
    match e.action
    case RegisterAction =>
      if acc.Blank? && e.newValue == StateText(Registered) then Live(Registered, level0) else Broken
    case UpgradeAction =>
      var n := ParseLevel(e.newValue);
      if && acc.Live? && acc.state in {Registered, Active} && e.oldValue == LevelText(acc.level)
         && n.Some? && n.value > acc.level
      then Live(acc.state, n.value) else Broken
    case BanAction => ReplayMove(acc, e, Banned)
    case UnbanAction => if acc.Live? && acc.state == Banned then ReplayMove(acc, e, Active) else Broken
    case UnregisterAction => ReplayMove(acc, e, Unregistered)
  }

  function ReplayMove(acc: Replayed, e: ChangeLog, target: AgentState): Replayed {
    if && acc.Live? && CanTransition(acc.state, target)
       && e.oldValue == StateText(acc.state) && e.newValue == StateText(target)
    then Live(target, acc.level) else Broken
  }

  function Replay(log: seq<ChangeLog>, level0: uint8): Replayed {
    if |log| == 0 then Blank else ReplayEntry(Replay(log[..|log| - 1], level0), log[|log| - 1], level0)
  }

  /** Broken stays broken: a log that replays has every prefix replay, so every old value matched. */
  lemma {:induction false} ReplayPrefixes(log: seq<ChangeLog>, level0: uint8, k: nat)
    requires k <= |log| && Replay(log, level0) != Broken
    ensures Replay(log[..k], level0) != Broken
  {
    if k < |log| {
      ReplayPrefixes(log[..|log| - 1], level0, k);
      assert log[..|log| - 1][..k] == log[..k];
    } else {
      assert log[..k] == log;
    }
  }

  // ---------------------------------------------------------------------
  // The audit invariant
  // ---------------------------------------------------------------------

  /** The log tells the agent's whole story from its registration at level0 to its present state, level and stamps. */
  ghost predicate TellsStory(log: seq<ChangeLog>, r: AgentInfo, level0: uint8) {
    && |log| > 0
    && Replay(log, level0) == Live(r.state, r.level)
    && StampsIncrease(log)
    && log[0].occurredAt == r.registeredAt
    && log[|log| - 1].occurredAt == r.updatedAt
    && (forall e :: e in log ==> e.uuid == r.uuid)
  }

  /** The registration that put an agent. */
  datatype Birth = Birth(req: RegisterRequest, now: Instant)

  type Births = map<string, Birth>

  /** The record carries what its registration asked for; no call changes that. */
  predicate BornAs(r: AgentInfo, b: Birth) {
    && r.owner == b.req.owner && r.permission == b.req.permission && r.publicKey == b.req.publicKey
    && r.txHash == "" && r.registeredAt == b.now
  }

  function BirthsAfter(born: Births, c: Call): Births {
    if c.RegisterCall? && WellFormed(c.req) then born[c.uid := Birth(c.req, c.now)] else born
  }

  ghost predicate AgentAudited(s: LocalState, born: Births, u: string, clock: Instant) {
    if u in s.store
    then
      && u in born && TellsStory(LogsOf(s.logs, u), s.store[u], born[u].req.level)
      && BornAs(s.store[u], born[u]) && s.store[u].updatedAt <= clock
    else LogsOf(s.logs, u) == []
  }

  ghost predicate Audited(s: LocalState, born: Births, clock: Instant) {
    && KeysAgree(s.store)
    && IndexAgrees(s.store, s.index)
    && forall u :: AgentAudited(s, born, u, clock)
  }

  /** The entry that an applied write appends takes the replay from the old record to the new one. */
  lemma EntryReplays(r: AgentInfo, op: WriteOp, now: Instant, level0: uint8)
    requires LocalVerdict(op, r, now).Applied? && !r.state.Illegal?
    ensures var v := LocalVerdict(op, r, now);
      ReplayEntry(Live(r.state, r.level), v.entry, level0) == Live(v.rec.state, v.rec.level)
  {
    match op
    case Upgrade(n, _) => LevelTextParses(n);
    case Ban(_) => TransitionMeaning(r.state, Banned);
    case Unban => TransitionMeaning(r.state, Active);
    case Unregister => TransitionMeaning(r.state, Unregistered);
  }

  lemma ReplayAppend(log: seq<ChangeLog>, e: ChangeLog, level0: uint8)
    ensures Replay(log + [e], level0) == ReplayEntry(Replay(log, level0), e, level0)
  {
    assert (log + [e])[..|log + [e]| - 1] == log;
  }

  /** An applied write extends the story by one consistent entry. */
  lemma WriteExtendsStory(log: seq<ChangeLog>, r: AgentInfo, level0: uint8, op: WriteOp, now: Instant)
    requires TellsStory(log, r, level0) && r.updatedAt < now
    requires LocalVerdict(op, r, now).Applied?
    ensures TellsStory(log + [LocalVerdict(op, r, now).entry], LocalVerdict(op, r, now).rec, level0)
  {
    var v := LocalVerdict(op, r, now);
    ReplayLegal(log, level0);
    EntryReplays(r, op, now, level0);
    ReplayAppend(log, v.entry, level0);
  }

  lemma LegalStates(log: seq<ChangeLog>, r: AgentInfo, level0: uint8)
    requires TellsStory(log, r, level0)
    ensures !r.state.Illegal?
  {
    ReplayLegal(log, level0);
  }

  lemma {:induction false} ReplayLegal(log: seq<ChangeLog>, level0: uint8)
    ensures Replay(log, level0).Live? ==> !Replay(log, level0).state.Illegal?
  {
    if |log| > 0 { ReplayLegal(log[..|log| - 1], level0); }
  }

  lemma RegistrationStartsStory(uid: string, req: RegisterRequest, now: Instant)
    ensures TellsStory([RegisterEntry(uid, req, now)], Registration(uid, req, now), req.level)
  {
    var log := [RegisterEntry(uid, req, now)];
    assert log[..0] == [];
    assert Replay(log, req.level) == Live(Registered, req.level);
  }

  /** Putting one record and appending one entry to its log keeps the invariant when the longer log tells the
      story of the new record. */
  lemma PutAndLogKeepsAudit(s: LocalState, born: Births, clock: Instant, r: AgentInfo, e: ChangeLog, now: Instant,
                            b: Birth)
    requires Audited(s, born, clock) && clock < now && r.updatedAt == now
    requires r.uuid != "" && e.uuid == r.uuid
    requires r.uuid in s.store ==> s.store[r.uuid].owner == r.owner
    requires TellsStory(LogsOf(s.logs, r.uuid) + [e], r, b.req.level) && BornAs(r, b)
    ensures Audited(PutAndLog(s, r, e), born[r.uuid := b], now)
  {
    hide TellsStory;
    PutKeepsIndexIff(s.store, s.index, r);
    var s', born' := PutAndLog(s, r, e), born[r.uuid := b];
    forall w ensures AgentAudited(s', born', w, now) {
      if w == r.uuid {
        PutAuditsItsAgent(s, born, r, e, now, b);
      } else {
        assert AgentAudited(s, born, w, clock);
        PutLeavesOthersAudited(s, born, r, e, w, clock, now, b);
      }
    }
  }

  /** The agent that was put, */
  lemma PutAuditsItsAgent(s: LocalState, born: Births, r: AgentInfo, e: ChangeLog, now: Instant, b: Birth)
    requires e.uuid == r.uuid && r.updatedAt == now && BornAs(r, b)
    requires TellsStory(LogsOf(s.logs, r.uuid) + [e], r, b.req.level)
    ensures AgentAudited(PutAndLog(s, r, e), born[r.uuid := b], r.uuid, now)
  {
    hide TellsStory;
  }

  /** and every other one. */
  lemma PutLeavesOthersAudited(s: LocalState, born: Births, r: AgentInfo, e: ChangeLog, w: string, clock: Instant,
                               now: Instant, b: Birth)
    requires e.uuid == r.uuid && w != r.uuid && AgentAudited(s, born, w, clock) && clock < now
    ensures AgentAudited(PutAndLog(s, r, e), born[r.uuid := b], w, now)
  {
    hide TellsStory;
  }

  lemma AuditedLater(s: LocalState, born: Births, clock: Instant, now: Instant)
    requires Audited(s, born, clock) && clock <= now
    ensures Audited(s, born, now)
  {
    hide TellsStory;
    forall u ensures AgentAudited(s, born, u, now) { assert AgentAudited(s, born, u, clock); }
  }

  lemma RegisterKeepsAudit(s: LocalState, born: Births, clock: Instant, uid: string, req: RegisterRequest, now: Instant)
    requires Audited(s, born, clock) && clock < now && uid != "" && uid !in s.store
    ensures Audited(LocalRegister(s, uid, req, now).state, BirthsAfter(born, RegisterCall(uid, req, now)), now)
  {
    hide TellsStory;
    AuditedLater(s, born, clock, now);
    if WellFormed(req) {
      var e := RegisterEntry(uid, req, now);
      assert AgentAudited(s, born, uid, clock);
      RegistrationStartsStory(uid, req, now);
      assert LogsOf(s.logs, uid) + [e] == [e];
      PutAndLogKeepsAudit(s, born, clock, Registration(uid, req, now), e, now, Birth(req, now));
    }
  }

  lemma WriteKeepsAudit(s: LocalState, born: Births, clock: Instant, u: string, op: WriteOp, now: Instant)
    requires Audited(s, born, clock) && clock < now
    ensures Audited(LocalWrite(s, u, op, now).state, born, now)
  {
    AuditedLater(s, born, clock, now);
    if u in s.store && LocalVerdict(op, s.store[u], now).Applied? {
      var log, r := LogsOf(s.logs, u), s.store[u];
      var v := LocalVerdict(op, r, now);
      assert AgentAudited(s, born, u, clock);
      WriteExtendsStory(log, r, born[u].req.level, op, now);
      hide TellsStory;
      PutAndLogKeepsAudit(s, born, clock, v.rec, v.entry, now, born[u]);
      assert born[u := born[u]] == born;
    }
  }

  /** Every admissible call keeps the audit invariant. */
  lemma CallKeepsAudit(s: LocalState, born: Births, clock: Instant, c: Call)
    requires Audited(s, born, clock) && Admissible(s, clock, c)
    ensures Audited(Perform(s, c).state, BirthsAfter(born, c), c.now)
  {
    match c
    case RegisterCall(uid, req, now) => RegisterKeepsAudit(s, born, clock, uid, req, now);
    case WriteCall(u, op, now) => WriteKeepsAudit(s, born, clock, u, op, now);
  }

  /** The registrations of a run. */
  ghost function AllBirths(born: Births, calls: seq<Call>): Births
    decreases |calls|
  {
    if |calls| == 0 then born else AllBirths(BirthsAfter(born, calls[0]), calls[1..])
  }

  /** They are calls of the run. */
  lemma {:induction false} BirthsMean(born: Births, calls: seq<Call>, u: string)
    ensures u in AllBirths(born, calls) ==>
      || (u in born && AllBirths(born, calls)[u] == born[u])
      || exists c :: c in calls && c.RegisterCall? && c.uid == u && AllBirths(born, calls)[u] == Birth(c.req, c.now)
    decreases |calls|
  {
    if |calls| > 0 {
      BirthsMean(BirthsAfter(born, calls[0]), calls[1..], u);
      assert forall c :: c in calls[1..] ==> c in calls;
      assert calls[0] in calls;
    }
  }

  lemma {:induction false} RunKeepsAudit(s: LocalState, born: Births, clock: Instant, calls: seq<Call>)
    requires Audited(s, born, clock) && Clocked(s, clock, calls)
    ensures Audited(Run(s, calls), AllBirths(born, calls), if |calls| == 0 then clock else calls[|calls| - 1].now)
    decreases |calls|
  {
    hide Audited, Perform;
    if |calls| > 0 {
      CallKeepsAudit(s, born, clock, calls[0]);
      RunKeepsAudit(Perform(s, calls[0]).state, BirthsAfter(born, calls[0]), calls[0].now, calls[1..]);
    }
  }

  /** In every reachable store, each agent is one that a registration call of the run asked for, with that call's owner,
      permission, key and time; its log replays from nothing, at the call's level, to its present state and level; and
      the owner index is exactly a scan of the store. */
  lemma EveryRunIsAudited(clock: Instant, calls: seq<Call>)
    requires Clocked(EMPTY, clock, calls)
    ensures var s := Run(EMPTY, calls);
      && IndexAgrees(s.store, s.index)
      && (forall u :: u in s.store ==>
            exists c :: c in calls && c.RegisterCall? && c.uid == u && BornAs(s.store[u], Birth(c.req, c.now))
              && TellsStory(LogsOf(s.logs, u), s.store[u], c.req.level))
      && (forall u :: u !in s.store ==> LogsOf(s.logs, u) == [])
  {
    hide TellsStory;
    assert Audited(EMPTY, map[], clock);
    RunKeepsAudit(EMPTY, map[], clock, calls);
    var s, born := Run(EMPTY, calls), AllBirths(map[], calls);
    var t := if |calls| == 0 then clock else calls[|calls| - 1].now;
    forall u ensures u !in s.store ==> LogsOf(s.logs, u) == []
             ensures u in s.store ==>
               exists c :: c in calls && c.RegisterCall? && c.uid == u && BornAs(s.store[u], Birth(c.req, c.now))
                 && TellsStory(LogsOf(s.logs, u), s.store[u], c.req.level)
    {
      assert AgentAudited(s, born, u, t);
      BirthsMean(map[], calls, u);
    }
  }

  /** The entries that a call appends to agent u's log. */
  function LoggedBy(s: LocalState, c: Call, u: string): seq<ChangeLog> {
    match c
    case RegisterCall(uid, req, now) =>
      if uid == u && req.owner != "" && req.level != 0 && req.publicKey != ""
      then [ChangeLog(uid, RegisterAction, req.owner, "", "registered", "", "", now)] else []
    case WriteCall(uuid, op, now) =>
      if uuid == u && u != "" && u in s.store && Applies(op, s.store[u]) then [EntryFor(op, s.store[u], now)] else []
  }

  ghost function AllLogged(s: LocalState, calls: seq<Call>, u: string): seq<ChangeLog>
    decreases |calls|
  {
    if |calls| == 0 then []
    else LoggedBy(s, calls[0], u) + AllLogged(Perform(s, calls[0]).state, calls[1..], u)
  }

  /** A call logs one entry, with its actor, values and reason, when it changes the agent, and none otherwise. */
  lemma CallLogs(s: LocalState, born: Births, clock: Instant, c: Call, u: string)
    requires Audited(s, born, clock)
    ensures LogsOf(Perform(s, c).state.logs, u) == LogsOf(s.logs, u) + LoggedBy(s, c, u)
  {
    hide TellsStory, Applies, LocalVerdict, IndexAgrees, AgentAudited;
    match c
    case RegisterCall(uid, req, now) => PutAndLogMeans(s, Registration(uid, req, now), RegisterEntry(uid, req, now));
    case WriteCall(uuid, op, now) =>
      LocalWriteMeans(s, uuid, op, now);
      if uuid in s.store { assert EntryFor(op, s.store[uuid], now).uuid == uuid; }
  }

  /** The log of each agent is what the calls of the run logged for it, in their order. */
  lemma {:induction false} LogIsItsCalls(s: LocalState, born: Births, clock: Instant, calls: seq<Call>, u: string)
    requires Audited(s, born, clock) && Clocked(s, clock, calls)
    ensures LogsOf(Run(s, calls).logs, u) == LogsOf(s.logs, u) + AllLogged(s, calls, u)
    decreases |calls|
  {
    hide Audited, Perform, LoggedBy;
    if |calls| > 0 {
      CallKeepsAudit(s, born, clock, calls[0]);
      CallLogs(s, born, clock, calls[0], u);
      LogIsItsCalls(Perform(s, calls[0]).state, BirthsAfter(born, calls[0]), calls[0].now, calls[1..], u);
    }
  }

  // ---------------------------------------------------------------------
  // What one call may touch
  // ---------------------------------------------------------------------

  /** The change that a write may make to a record: one edge of the transition table, or a higher level of an
      agent that is neither banned nor unregistered; and the stamp. */
  ghost predicate LegalChange(r: AgentInfo, r': AgentInfo, now: Instant) {
    && r' == r.(state := r'.state, level := r'.level, updatedAt := now)
    && (|| (r'.level == r.level && CanTransition(r.state, r'.state))
        || (r'.state == r.state && r'.level > r.level && r.state in {Registered, Active}))
  }

  /** Only agent u differs, and its log has exactly one more entry. */
  ghost predicate OneLoggedChange(s: LocalState, s': LocalState, u: string) {
    && s'.store.Keys == s.store.Keys + {u}
    && (forall w :: w in s.store && w != u ==> s'.store[w] == s.store[w])
    && (forall w :: w != u ==> LogsOf(s'.logs, w) == LogsOf(s.logs, w))
    && |LogsOf(s'.logs, u)| == |LogsOf(s.logs, u)| + 1
    && LogsOf(s.logs, u) <= LogsOf(s'.logs, u)
  }

  lemma AppliedIsLegal(op: WriteOp, r: AgentInfo, now: Instant)
    requires LocalVerdict(op, r, now).Applied? && !r.state.Illegal?
    ensures LegalChange(r, LocalVerdict(op, r, now).rec, now)
  {
    match op
    case Upgrade(n, _) =>
    case Ban(_) => TransitionMeaning(r.state, Banned);
    case Unban => TransitionMeaning(r.state, Active);
    case Unregister => TransitionMeaning(r.state, Unregistered);
  }

  lemma PutAndLogIsOneChange(s: LocalState, r: AgentInfo, e: ChangeLog)
    requires e.uuid == r.uuid
    ensures OneLoggedChange(s, PutAndLog(s, r, e), r.uuid)
  {
  }

  /** Nothing changed, or one agent changed legally under exactly one new log entry. */
  ghost predicate QuietChange(s: LocalState, s': LocalState, u: string, now: Instant) {
    || s' == s
    || (OneLoggedChange(s, s', u) && (u in s.store ==> u in s'.store && LegalChange(s.store[u], s'.store[u], now)))
  }

  lemma WriteIsQuietOrLogged(s: LocalState, born: Births, clock: Instant, u: string, op: WriteOp, now: Instant)
    requires Audited(s, born, clock)
    ensures QuietChange(s, LocalWrite(s, u, op, now).state, u, now)
  {
    if u in s.store && LocalVerdict(op, s.store[u], now).Applied? {
      var v := LocalVerdict(op, s.store[u], now);
      assert AgentAudited(s, born, u, clock);
      LegalStates(LogsOf(s.logs, u), s.store[u], born[u].req.level);
      AppliedIsLegal(op, s.store[u], now);
      PutAndLogIsOneChange(s, v.rec, v.entry);
    }
  }

  /** A call either changes nothing at all, or succeeds, changes one agent legally and appends exactly one entry
      to that agent's log. A failed call changes nothing, and a registration that succeeds does change. */
  lemma QuietOrLogged(s: LocalState, born: Births, clock: Instant, c: Call)
    requires Audited(s, born, clock) && Admissible(s, clock, c)
    ensures QuietChange(s, Perform(s, c).state, if c.RegisterCall? then c.uid else c.uuid, c.now)
    ensures Perform(s, c).result.Err? ==> Perform(s, c).state == s
    ensures c.RegisterCall? && Perform(s, c).result.Ok? ==> c.uid in Perform(s, c).state.store
  {
    match c
    case RegisterCall(uid, req, now) =>
      if WellFormed(req) {
        PutAndLogIsOneChange(s, Registration(uid, req, now), RegisterEntry(uid, req, now));
      }
    case WriteCall(u, op, now) =>
      WriteIsQuietOrLogged(s, born, clock, u, op, now);
  }

  /** Over whole runs an agent keeps its identity, never loses a level, and once unregistered it keeps its
      record and its log for ever. */
  lemma {:induction false} LifeOfAnAgent(s: LocalState, born: Births, clock: Instant, calls: seq<Call>, u: string)
    requires Audited(s, born, clock) && Clocked(s, clock, calls) && u in s.store
    ensures u in Run(s, calls).store
    ensures var r, r' := s.store[u], Run(s, calls).store[u];
      && r'.uuid == u && r'.owner == r.owner && r'.permission == r.permission
      && r'.publicKey == r.publicKey && r'.registeredAt == r.registeredAt
      && r.level <= r'.level && r.updatedAt <= r'.updatedAt
    ensures LogsOf(s.logs, u) <= LogsOf(Run(s, calls).logs, u)
    ensures s.store[u].state == Unregistered ==>
      Run(s, calls).store[u] == s.store[u] && LogsOf(Run(s, calls).logs, u) == LogsOf(s.logs, u)
    decreases |calls|
  {
    if |calls| > 0 {
      var c := calls[0];
      var s1 := Perform(s, c).state;
      CallKeepsAudit(s, born, clock, c);
      QuietOrLogged(s, born, clock, c);
      assert AgentAudited(s, born, u, clock);
      LifeOfAnAgent(s1, BirthsAfter(born, c), c.now, calls[1..], u);
    }
  }
}
