/** What the domain agent keeps: grants and revocations refine sets of bit indices, upgrades are atomic exactly
    when no expired temporary bit comes in, and every run keeps permissions within the level and bans consistent. */
module DomainRuns {
  import opened Prelude
  import opened Records
  import opened StateMachine
  import opened Permissions
  import opened UuidText
  import opened GoTime
  import opened DomainAgent

  // ---------------------------------------------------------------------
  // Grant and revoke
  // ---------------------------------------------------------------------

  /** A grant succeeds exactly for an index that the level allows, and then adds that index and no other. */
  lemma GrantAddsOneIndex(a: AgentValue, bit: bv64)
    ensures GrantEffect(a, bit).error == None <==> bit in Bits(MaxPermissions(a.level))
    ensures GrantEffect(a, bit).error == None ==>
      Bits(GrantEffect(a, bit).agent.permissions) == Bits(a.permissions) + iset{bit}
    ensures GrantEffect(a, bit).error != None ==> GrantEffect(a, bit).agent == a
  {
    AllowsIsMember(a.level, bit);
    if bit < 64 { GrantedBits(a.permissions, bit); }
  }

  /** A revocation fails exactly for an index above 63, and otherwise removes that index and no other. */
  lemma RevokeRemovesOneIndex(a: AgentValue, bit: bv64)
    ensures RevokeEffect(a, bit).error == None <==> bit <= 63
    ensures RevokeEffect(a, bit).error == None ==>
      Bits(RevokeEffect(a, bit).agent.permissions) == Bits(a.permissions) - iset{bit}
    ensures RevokeEffect(a, bit).error != None ==> RevokeEffect(a, bit).agent == a
  {
    if bit < 64 { RevokedBits(a.permissions, bit); }
  }

  // ---------------------------------------------------------------------
  // UpgradeAgent
  // ---------------------------------------------------------------------

  lemma RefusalMeans(level: Level, perms: Mask, newLevel: Level, newPerms: Mask)
    requires RaiseRefusal(level, perms, newLevel, newPerms) == None
    ensures newLevel <= 7 && level < newLevel && newLevel as int == level as int + 1
    ensures Within(Merge(perms, newPerms), newLevel)
  {
  }

  /** The checks one by one, the later ones only when the earlier ones pass: the level is one above and at most 7, and
      the merged indices are allowed at the new level. */
  function Objection(a: AgentValue, i: UpgradeInput): Option<DomainError> {
    if i.operatorDid == "" then Some(EmptyOperator)
    else if i.now.instant == 0 then Some(NoTime)
    else if a.state !in {Registered, Active} then Some(UpgradeState)
    else if i.agentSelfDid == i.operatorDid then Some(SelfUpgrade)
    else if !(i.newLevel as int == a.level as int + 1 <= 7) then Some(BadLevel)
    else if !Within(a.permissions, i.newLevel) || !Within(i.newPerms, i.newLevel) then Some(ExceedsLevel)
    else None
  }

  lemma MergeWithinIff(p: Mask, q: Mask, l: Level)
    ensures Within(Merge(p, q), l) <==> Within(p, l) && Within(q, l)
    ensures Within(p, l) && Within(q, l) <==> Bits(p) + Bits(q) <= Bits(MaxPermissions(l))
  {
    WithinIffBits(p, l);
    WithinIffBits(q, l);
    WithinIffBits(Merge(p, q), l);
    MergedBits(p, q);
    hide Within, Bits, MaxPermissions, Merge;
  }

  lemma LevelStep(level: Level, newLevel: Level)
    ensures !(!ValidLevel(newLevel) || newLevel <= level || newLevel != level + 1) <==>
              newLevel as int == level as int + 1 <= 7
  {
  }

  lemma RefusalIs(a: AgentValue, i: UpgradeInput)
    ensures UpgradeRefusal(a, i) == Objection(a, i)
  {
    LevelStep(a.level, i.newLevel);
    MergeWithinIff(a.permissions, i.newPerms, i.newLevel);
    hide Within, ValidLevel, Merge, Bits, MaxPermissions;
  }

  /** An upgrade succeeds if and only if an operator and a time are given, the agent is registered or active and not its
      own operator, the level goes up by one and to at most 7, the old and the new indices are allowed there, no bit
      among them has expired, the expiry does not precede the registration, and the UUID is not blank. */
  lemma UpgradeSucceedsIff(a: AgentValue, i: UpgradeInput)
    ensures UpgradeAgent(a, i).result.Ok? <==>
      && i.operatorDid != "" && i.now.instant != 0
      && a.state in {Registered, Active} && i.agentSelfDid != i.operatorDid
      && i.newLevel as int == a.level as int + 1 <= 7
      && Bits(a.permissions) + Bits(i.newPerms) <= Bits(MaxPermissions(i.newLevel))
      && !ExpiredAndSet(a.tempPermissions, a.permissions, i.now)
      && !ExpiredAndSet(a.tempPermissions, i.newPerms, i.now)
      && (a.expiresAt == None || a.expiresAt.value.instant >= a.registeredAt.instant)
      && !IsZeroUuid(a.uuid)
  {
    RefusalIs(a, i);
    MergeWithinIff(a.permissions, i.newPerms, i.newLevel);
    UpgradeHalfDoneIff(a, i);
    RefusedUnchanged(a, i);
    hide Within, Bits, MaxPermissions, Merge, ExpiredAndSet, UpgradeAgent, UpgradeRefusal;
  }

  lemma RefusedUnchanged(a: AgentValue, i: UpgradeInput)
    ensures UpgradeRefusal(a, i) != None ==>
      UpgradeAgent(a, i) == UpgradeOutcome(a, Err(UpgradeRefusal(a, i).value))
    ensures UpgradeRefusal(a, i) == None ==> UpgradeAgent(a, i).agent != a
  {
    if UpgradeRefusal(a, i) == None {
      RefusalMeans(a.level, a.permissions, i.newLevel, i.newPerms);
      assert Upgraded(a, i).level != a.level;
    }
  }

  /** Which error a failed check gives, and that the agent is then left as it was. */
  lemma UpgradeErrors(a: AgentValue, i: UpgradeInput)
    ensures Objection(a, i) != None ==> UpgradeAgent(a, i) == UpgradeOutcome(a, Err(Objection(a, i).value))
  {
    RefusalIs(a, i);
    RefusedUnchanged(a, i);
    hide UpgradeAgent, Objection;
  }

  /** A new agent: the first bad argument is named; otherwise it is registered at the level, with nothing else set. */
  lemma NewAgentIs(uuid: string, owner: string, level: Level, publicKey: string, now: Time)
    ensures NewAgent(uuid, owner, level, publicKey, now) ==
      if !MatchesUuid(uuid) then Err(BadUuid)
      else if |owner| < 3 || |owner| > 64 then Err(BadOwner)
      else if exists c :: c in owner && !('a' <= c <= 'z' || '0' <= c <= '9' || c in ['_', '-']) then Err(BadOwner)
      else if level as int > 7 then Err(BadLevel)
      else if publicKey == "" then Err(EmptyPublicKey)
      else Ok(AgentValue(uuid, owner, level, Registered, "", publicKey, 0, now, now, None, None, "", map[]))
  {
    if MatchesUuid(uuid) { ValidUuidNotBlank(uuid); }
    LevelBoundIff(level);
    hide MatchesUuid, ValidLevel;
  }

  /** The five default invariants: a legal state; the last upgrade not by the agent itself; no expired temporary bit
      set; no index above the level's; and an expiry that does not precede the registration. */
  lemma InvariantsMean(a: AgentValue, now: Time, selfDid: Option<string>)
    ensures AllHold(a, now, selfDid) <==>
      && a.state in {Registered, Active, Banned, Unregistered}
      && (a.lastUpgradeBy != "" ==> selfDid != Some(a.lastUpgradeBy))
      && (forall b :: b in a.tempPermissions && a.tempPermissions[b].instant <= now.instant ==>
            b.value !in Bits(a.permissions))
      && Bits(a.permissions) <= Bits(MaxPermissions(a.level))
      && (a.expiresAt.Some? ==> a.registeredAt.instant <= a.expiresAt.value.instant)
  {
    AllHoldMeans(a, now, selfDid);
    ExpiredMembers(a.tempPermissions, a.permissions, now);
    WithinIffBits(a.permissions, a.level);
    hide AllHold, ExpiredAndSet, Within, Bits, MaxPermissions;
  }

  lemma LevelBoundIff(l: Level)
    ensures ValidLevel(l) <==> l as int <= 7
  {
  }

  /** Merging sets the bits of both masks, so an expired bit is set afterwards if it was set in either. */
  lemma ExpiredInMerge(temp: map<BitIndex, Time>, p: Mask, q: Mask, now: Time)
    ensures ExpiredAndSet(temp, Merge(p, q), now) <==> ExpiredAndSet(temp, p, now) || ExpiredAndSet(temp, q, now)
  {
    MergedBits(p, q);
    ExpiredMembers(temp, p, now);
    ExpiredMembers(temp, q, now);
    ExpiredMembers(temp, Merge(p, q), now);
  }

  lemma ExpiredMembers(temp: map<BitIndex, Time>, p: Mask, now: Time)
    ensures ExpiredAndSet(temp, p, now) <==> exists b :: b in temp && !Before(now, temp[b]) && b.value in Bits(p)
  {
    if ExpiredAndSet(temp, p, now) {
      var b :| b in temp && !Before(now, temp[b]) && Has(p, b.value);
      assert b.value in Bits(p);
    }
  }

  /** An upgrade fails and yet leaves the agent changed exactly when its checks pass and either a bit that has
      expired is set after merging, or the stored expiry lies before the registration, or the UUID is blank. */
  lemma UpgradeHalfDoneIff(a: AgentValue, i: UpgradeInput)
    ensures (UpgradeAgent(a, i).result.Err? && UpgradeAgent(a, i).agent != a) <==>
      && UpgradeRefusal(a, i) == None
      && (|| ExpiredAndSet(a.tempPermissions, a.permissions, i.now)
          || ExpiredAndSet(a.tempPermissions, i.newPerms, i.now)
          || (a.expiresAt != None && Before(a.expiresAt.value, a.registeredAt))
          || IsZeroUuid(a.uuid))
  {
    if UpgradeRefusal(a, i) == None {
      RefusalMeans(a.level, a.permissions, i.newLevel, i.newPerms);
      ExpiredInMerge(a.tempPermissions, a.permissions, i.newPerms, i.now);
      AllHoldMeans(Upgraded(a, i), i.now, None);
      assert Upgraded(a, i).level != a.level;
    }
  }

  lemma ValidUuidNotBlank(s: string)
    requires MatchesUuid(s)
    ensures !IsZeroUuid(s)
  {
    UuidShape(s);
    var c := s[0];
    assert c in s;
  }

  lemma UpgradeSucceeds(a: AgentValue, i: UpgradeInput)
    requires MatchesUuid(a.uuid) && AllHold(a, i.now, None)
    requires !ExpiredAndSet(a.tempPermissions, i.newPerms, i.now) && UpgradeRefusal(a, i) == None
    ensures UpgradeAgent(a, i) == UpgradeOutcome(Upgraded(a, i), Ok(UpgradeEvent(a, i)))
    ensures AllHold(Upgraded(a, i), i.now, if i.agentSelfDid == "" then None else Some(i.agentSelfDid))
  {
    var a' := Upgraded(a, i);
    RefusalMeans(a.level, a.permissions, i.newLevel, i.newPerms);
    ExpiredInMerge(a.tempPermissions, a.permissions, i.newPerms, i.now);
    AllHoldMeans(a, i.now, None);
    AllHoldMeans(a', i.now, None);
    AllHoldMeans(a', i.now, if i.agentSelfDid == "" then None else Some(i.agentSelfDid));
    ValidUuidNotBlank(a.uuid);
  }

  /** The event tells what happened to the agent. */
  ghost predicate TrueEvent(e: UpgradedEvent, a: AgentValue, a': AgentValue, i: UpgradeInput) {
    && e.agentUuid == a.uuid && e.operatorDid == i.operatorDid != "" && e.occurredAt == i.now && e.reason == i.reason
    && e.oldLevel == a.level && e.newLevel == a'.level
    && e.oldPerms == a.permissions && e.newPerms == a'.permissions
    && e.eventId == a.uuid + ":upgrade:" + Format(i.now)
  }

  /** For a valid agent that satisfies all invariants, with no expired temporary bit among the new permissions: an
      upgrade either fails and leaves the agent as it was, or raises the level by exactly one, merges the
      permissions, keeps all invariants (the one against self-upgrades included), and yields a true event. */
  lemma UpgradeIsAtomic(a: AgentValue, i: UpgradeInput)
    requires MatchesUuid(a.uuid) && AllHold(a, i.now, None)
    requires !ExpiredAndSet(a.tempPermissions, i.newPerms, i.now)
    ensures var o := UpgradeAgent(a, i);
      match o.result
      case Err(e) => o.agent == a && UpgradeRefusal(a, i) == Some(e)
      case Ok(e) =>
        && o.agent == a.(level := o.agent.level, permissions := o.agent.permissions,
                         lastUpgradeBy := i.operatorDid, updatedAt := i.now)
        && o.agent.level == i.newLevel && o.agent.level as int == a.level as int + 1 <= 7
        && Bits(o.agent.permissions) == Bits(a.permissions) + Bits(i.newPerms)
        && AllHold(o.agent, i.now, if i.agentSelfDid == "" then None else Some(i.agentSelfDid))
        && TrueEvent(e, a, o.agent, i)
  {
    if UpgradeRefusal(a, i) == None {
      UpgradeSucceeds(a, i);
      RefusalMeans(a.level, a.permissions, i.newLevel, i.newPerms);
      LevelBound(i.newLevel);
      MergedBits(a.permissions, i.newPerms);
    }
  }

  lemma NothingSet(temp: map<BitIndex, Time>, now: Time)
    ensures !ExpiredAndSet(temp, 0, now)
  {
    forall b: bv64 ensures !Has(0, b) {}
  }

  /** Bit 3 was granted temporarily and has expired. Merging it in again is refused only after the level is raised. */
  lemma ExpiredBitLeavesAgentRaised()
    ensures var a := AgentValue("00000000000000000000000000000000", "acme", 0, Active, "", "pk", 0,
                                Time(1, 0), Time(1, 0), None, None, "", map[BitIndex(3) := Time(5, 0)]);
      var i := UpgradeInput(1, 8, "did:op", "", Time(9, 0), "");
      && MatchesUuid(a.uuid) && AllHold(a, i.now, None)
      && UpgradeAgent(a, i).result.Err? && UpgradeAgent(a, i).agent.level == 1
  {
    var a := AgentValue("00000000000000000000000000000000", "acme", 0, Active, "", "pk", 0,
                        Time(1, 0), Time(1, 0), None, None, "", map[BitIndex(3) := Time(5, 0)]);
    var i := UpgradeInput(1, 8, "did:op", "", Time(9, 0), "");
    assert BitIndex(3) in a.tempPermissions && Has(8, 3);
    assert ExpiredAndSet(a.tempPermissions, i.newPerms, i.now);
    NothingSet(a.tempPermissions, i.now);
    AllHoldMeans(a, i.now, None);
    MaxPermissionsTable(0);
    MaxPermissionsTable(1);
    assert UpgradeRefusal(a, i) == None;
    UpgradeHalfDoneIff(a, i);
  }

  // ---------------------------------------------------------------------
  // Runs
  // ---------------------------------------------------------------------

  datatype AgentOp =
    | ActivateOp(now: Time) | BanOp(reason: string, now: Time) | UnbanOp(now: Time)
    | RaiseOp(newLevel: Level, now: Time) | GrantOp(bit: bv64) | RevokeOp(bit: bv64)
    | UpgradeOp(input: UpgradeInput)

  function Apply(a: AgentValue, op: AgentOp): AgentValue {
    match op
    case ActivateOp(now) => ActivateEffect(a, now).agent
    case BanOp(reason, now) => BanEffect(a, reason, now).agent
    case UnbanOp(now) => UnbanEffect(a, now).agent
    case RaiseOp(n, now) => RaiseEffect(a, n, now).agent
    case GrantOp(bit) => GrantEffect(a, bit).agent
    case RevokeOp(bit) => RevokeEffect(a, bit).agent
    case UpgradeOp(i) => UpgradeAgent(a, i).agent
  }

  function Run(a: AgentValue, ops: seq<AgentOp>): AgentValue
    decreases |ops|
  {
    if |ops| == 0 then a else Run(Apply(a, ops[0]), ops[1..])
  }

  /** No operation, failed or not, changes who the agent is. */
  lemma {:induction false} RunKeepsUuid(a: AgentValue, ops: seq<AgentOp>)
    ensures Run(a, ops).uuid == a.uuid
    decreases |ops|
  {
    if |ops| > 0 {
      ApplyKeepsUuid(a, ops[0]);
      RunKeepsUuid(Apply(a, ops[0]), ops[1..]);
    }
  }

  lemma ApplyKeepsUuid(a: AgentValue, op: AgentOp)
    ensures Apply(a, op).uuid == a.uuid
  {
    hide ValidLevel, Within, Allows, WithBit, WithoutBit, Merge, FirstViolation;
  }

  /** The call at position k is an upgrade that succeeds. */
  predicate SucceedsAt(a: AgentValue, ops: seq<AgentOp>, k: nat) {
    k < |ops| && ops[k].UpgradeOp? && UpgradeAgent(Run(a, ops[..k]), ops[k].input).result.Ok?
  }

  /** and the event that it yields. */
  function EventAt(a: AgentValue, ops: seq<AgentOp>, k: nat): UpgradedEvent
    requires SucceedsAt(a, ops, k)
  {
    UpgradeAgent(Run(a, ops[..k]), ops[k].input).result.value
  }

  /** How many of a run's UpgradeAgent calls succeed. */
  function Successes(a: AgentValue, ops: seq<AgentOp>): nat
    decreases |ops|
  {
    if |ops| == 0 then 0
    else (if ops[0].UpgradeOp? && UpgradeAgent(a, ops[0].input).result.Ok? then 1 else 0)
         + Successes(Apply(a, ops[0]), ops[1..])
  }

  predicate BanConsistent(a: AgentValue) {
    && (a.state == Banned <==> a.bannedAt != None)
    && (a.state == Banned <==> a.banReason != "")
  }

  /** Permissions within the level, a valid level, and a lifecycle state with consistent ban fields. */
  predicate Sound(a: AgentValue) {
    && ValidLevel(a.level) && Within(a.permissions, a.level)
    && a.state in {Registered, Active, Banned}
    && BanConsistent(a)
  }

  lemma LifecycleKeepsSound(a: AgentValue, op: AgentOp)
    requires Sound(a) && (op.ActivateOp? || op.BanOp? || op.UnbanOp?)
    ensures Sound(Apply(a, op)) && Apply(a, op).level == a.level
    ensures Apply(a, op).state == a.state || CanTransition(a.state, Apply(a, op).state)
  {
    TransitionMeaning(a.state, Apply(a, op).state);
    assert Apply(a, op).permissions == a.permissions;
  }

  lemma MaskOpsKeepSound(a: AgentValue, op: AgentOp)
    requires Sound(a) && (op.GrantOp? || op.RevokeOp?)
    ensures Sound(Apply(a, op)) && Apply(a, op).level == a.level && Apply(a, op).state == a.state
  {
    if op.GrantOp? && GrantEffect(a, op.bit).error == None {
      GrantWithin(a.permissions, a.level, op.bit);
    }
    if op.RevokeOp? && op.bit <= 63 {
      RevokeWithin(a.permissions, a.level, op.bit);
    }
  }

  lemma RaiseMeans(a: AgentValue, n: Level, now: Time)
    requires RaiseEffect(a, n, now).error == None
    ensures a.level < n <= 7 && n as int == a.level as int + 1
  {
  }

  lemma RaiseKeepsSound(a: AgentValue, n: Level, now: Time)
    requires Sound(a)
    ensures var a' := RaiseEffect(a, n, now).agent;
      Sound(a') && a'.state == a.state && a.level as int <= a'.level as int
  {
    if RaiseEffect(a, n, now).error == None {
      RaiseMeans(a, n, now);
      WithinMonotone(a.permissions, a.level, n);
    }
  }

  lemma UpgradeKeepsSound(a: AgentValue, i: UpgradeInput)
    requires Sound(a)
    ensures var a' := UpgradeAgent(a, i).agent;
      Sound(a') && a'.state == a.state && a.level as int <= a'.level as int
    ensures UpgradeAgent(a, i).result.Ok? ==> UpgradeAgent(a, i).agent.level as int == a.level as int + 1
  {
    if UpgradeRefusal(a, i) == None {
      RefusalMeans(a.level, a.permissions, i.newLevel, i.newPerms);
      assert UpgradeAgent(a, i).agent == Upgraded(a, i);
    }
  }

  /** Every operation, failed or not, keeps the agent sound, never lowers its level, and moves its state along
      an edge of the transition table or not at all. */
  lemma ApplyKeepsSound(a: AgentValue, op: AgentOp)
    requires Sound(a)
    ensures Sound(Apply(a, op)) && a.level as int <= Apply(a, op).level as int
    ensures Apply(a, op).state == a.state || CanTransition(a.state, Apply(a, op).state)
    ensures op.UpgradeOp? && UpgradeAgent(a, op.input).result.Ok? ==>
      Apply(a, op).level as int == a.level as int + 1
  {
    match op
    case ActivateOp(_) => LifecycleKeepsSound(a, op);
    case BanOp(_, _) => LifecycleKeepsSound(a, op);
    case UnbanOp(_) => LifecycleKeepsSound(a, op);
    case RaiseOp(n, now) => RaiseKeepsSound(a, n, now);
    case GrantOp(_) => MaskOpsKeepSound(a, op);
    case RevokeOp(_) => MaskOpsKeepSound(a, op);
    case UpgradeOp(i) => UpgradeKeepsSound(a, i);
  }

  lemma {:induction false} RunKeepsSound(a: AgentValue, ops: seq<AgentOp>)
    requires Sound(a)
    ensures Sound(Run(a, ops))
    ensures a.level as int + Successes(a, ops) <= Run(a, ops).level as int <= 7
    decreases |ops|
  {
    if |ops| > 0 {
      ApplyKeepsSound(a, ops[0]);
      RunKeepsSound(Apply(a, ops[0]), ops[1..]);
    } else {
      LevelBound(a.level);
    }
  }

  lemma LevelBound(l: Level)
    requires ValidLevel(l)
    ensures l as int <= 7
  {
  }

  /** From construction on, through any operations: every permission bit lies within the level, the agent is banned
      exactly when a ban time is set and exactly when a reason is set, and at most 7 minus the initial level
      upgrades succeed. */
  lemma EveryRunFromNewAgent(uuid: string, owner: string, level: Level, key: string, now: Time, ops: seq<AgentOp>)
    requires NewAgent(uuid, owner, level, key, now).Ok?
    ensures var a0 := NewAgent(uuid, owner, level, key, now).value; var a := Run(a0, ops);
      && Bits(a.permissions) <= Bits(MaxPermissions(a.level))
      && (a.state == Banned <==> a.bannedAt != None) && (a.state == Banned <==> a.banReason != "")
      && Successes(a0, ops) <= 7 - level as int
  {
    var a0 := NewAgent(uuid, owner, level, key, now).value;
    ZeroWithin(level);
    RunKeepsSound(a0, ops);
    WithinIffBits(Run(a0, ops).permissions, Run(a0, ops).level);
  }

  lemma ZeroWithin(l: Level)
    ensures Within(0, l)
  {
  }
}
