/** The domain agent: its lifecycle (internal/domain/agent.go), the five invariants (internal/domain/invariants.go)
    and the upgrade rule (internal/domain/upgrade.go). */
module DomainAgent {
  import opened Prelude
  import opened Records
  import opened StateMachine
  import opened Permissions
  import opened UuidText
  import opened GoTime

  // ---------------------------------------------------------------------
  // The agent as a value
  // ---------------------------------------------------------------------

  /** A bit index as a map key. */
  datatype BitIndex = BitIndex(value: bv64)

  /** A nil map of temporary permissions reads as the empty one. */
  datatype AgentValue = AgentValue(
    uuid: string, owner: string, level: Level, state: AgentState, banReason: string,
    publicKey: string, permissions: Mask, registeredAt: Time, updatedAt: Time,
    bannedAt: Option<Time>, expiresAt: Option<Time>,
    lastUpgradeBy: string, tempPermissions: map<BitIndex, Time>)

  datatype DomainError =
    | BadUuid | BadOwner | BadLevel | EmptyPublicKey | BadTransition | EmptyBanReason | BitOutOfRange
    | ExceedsLevel | NilAgent | EmptyOperator | NoTime | UpgradeState | SelfUpgrade
    | InvariantFailed(violation: Violation) | EventRefused

  /** strings.TrimSpace leaves nothing. */
  predicate IsSpace(c: char) {
    || '\t' <= c <= '\r' || c == ' ' || c == '\U{85}' || c == '\U{A0}' || c == '\U{1680}'
    || '\U{2000}' <= c <= '\U{200A}' || c == '\U{2028}' || c == '\U{2029}' || c == '\U{202F}'
    || c == '\U{205F}' || c == '\U{3000}'
  }

  predicate IsZeroUuid(s: string) { forall c :: c in s ==> IsSpace(c) }

  predicate ValidOwner(s: string) {
    3 <= |s| <= 64 && forall c :: c in s ==> 'a' <= c <= 'z' || '0' <= c <= '9' || c == '_' || c == '-'
  }

  function NewAgent(uuid: string, owner: string, level: Level, publicKey: string, now: Time)
    : Result<AgentValue, DomainError>
  {
    if IsZeroUuid(uuid) || !MatchesUuid(uuid) then Err(BadUuid)
    else if !ValidOwner(owner) then Err(BadOwner)
    else if !ValidLevel(level) then Err(BadLevel)
    else if publicKey == "" then Err(EmptyPublicKey)
    else Ok(AgentValue(uuid, owner, level, Registered, "", publicKey, 0, now, now, None, None, "", map[]))
  }

  // ---------------------------------------------------------------------
  // Invariants
  // ---------------------------------------------------------------------

  /** The self DID is what the configured function returns for the agent; None when none is configured. */
  datatype Invariant =
    | StatusLegal | NoSelfUpgrade(selfDid: Option<string>) | TempPermsExpire | PermsWithinLevel
    | ExpiresAfterRegistered

  datatype Violation = Violation(rule: Invariant)

  /** A temporary bit that has expired and is still set. */
  predicate ExpiredAndSet(temp: map<BitIndex, Time>, perms: Mask, now: Time) {
    exists b :: b in temp && !Before(now, temp[b]) && Has(perms, b.value)
  }

  predicate Holds(inv: Invariant, a: AgentValue, now: Time) {
    match inv
    case StatusLegal => IsValidState(a.state)
    case NoSelfUpgrade(did) => did == None || a.lastUpgradeBy == "" || Some(a.lastUpgradeBy) != did
    case TempPermsExpire => !ExpiredAndSet(a.tempPermissions, a.permissions, now)
    case PermsWithinLevel => Within(a.permissions, a.level)
    case ExpiresAfterRegistered => a.expiresAt == None || !Before(a.expiresAt.value, a.registeredAt)
  }

  /** TemporaryPermissionExpireInvariant.Check: the loop over the map, in any order. */
  method CheckTemp(temp: map<BitIndex, Time>, perms: Mask, now: Time) returns (v: Option<Violation>)
    ensures v == if ExpiredAndSet(temp, perms, now) then Some(Violation(TempPermsExpire)) else None
  {
    var todo := temp.Keys;
    while todo != {}
      invariant todo <= temp.Keys
      invariant forall b :: b in temp && b !in todo ==> !(!Before(now, temp[b]) && Has(perms, b.value))
      decreases |todo|
    {
      var b :| b in todo;
      if !Before(now, temp[b]) {
        if Has(perms, b.value) {
          return Some(Violation(TempPermsExpire));
        }
      }
      todo := todo - {b};
    }
    v := None;
  }

  method CheckStatus(state: AgentState) returns (v: Option<Violation>)
    ensures v == if IsValidState(state) then None else Some(Violation(StatusLegal))
  {
    if !IsValidState(state) { return Some(Violation(StatusLegal)); }
    v := None;
  }

  method CheckSelf(did: Option<string>, lastUpgradeBy: string) returns (v: Option<Violation>)
    ensures v == if did == None || lastUpgradeBy == "" || Some(lastUpgradeBy) != did then None
                 else Some(Violation(NoSelfUpgrade(did)))
  {
    if did == None || lastUpgradeBy == "" { return None; }
    if lastUpgradeBy == did.value { return Some(Violation(NoSelfUpgrade(did))); }
    v := None;
  }

  method CheckWithin(perms: Mask, level: Level) returns (v: Option<Violation>)
    ensures v == if Within(perms, level) then None else Some(Violation(PermsWithinLevel))
  {
    if perms & !MaxPermissions(level) != 0 { return Some(Violation(PermsWithinLevel)); }
    v := None;
  }

  method CheckExpiry(expiresAt: Option<Time>, registeredAt: Time) returns (v: Option<Violation>)
    ensures v == if expiresAt == None || !Before(expiresAt.value, registeredAt) then None
                 else Some(Violation(ExpiresAfterRegistered))
  {
    if expiresAt != None && Before(expiresAt.value, registeredAt) { return Some(Violation(ExpiresAfterRegistered)); }
    v := None;
  }

  method Check(inv: Invariant, a: AgentValue, now: Time) returns (v: Option<Violation>)
    ensures v == if Holds(inv, a, now) then None else Some(Violation(inv))
  {
    hide Within, ExpiredAndSet, IsValidState;
    match inv {
      case StatusLegal => v := CheckStatus(a.state);
      case NoSelfUpgrade(did) => v := CheckSelf(did, a.lastUpgradeBy);
      case TempPermsExpire => v := CheckTemp(a.tempPermissions, a.permissions, now);
      case PermsWithinLevel => v := CheckWithin(a.permissions, a.level);
      case ExpiresAfterRegistered => v := CheckExpiry(a.expiresAt, a.registeredAt);
    }
  }

  function DefaultInvariants(selfDid: Option<string>): seq<Invariant> {
    [StatusLegal, NoSelfUpgrade(selfDid), TempPermsExpire, PermsWithinLevel, ExpiresAfterRegistered]
  }

  /** The first violation of a list. */
  function FirstViolation(invs: seq<Invariant>, a: AgentValue, now: Time): (v: Option<Violation>)
    ensures v == None <==> forall inv :: inv in invs ==> Holds(inv, a, now)
  {
    if |invs| == 0 then None
    else if Holds(invs[0], a, now) then FirstViolation(invs[1..], a, now)
    else Some(Violation(invs[0]))
  }

  /** CheckInvariantsWith stops at the first violation. */
  method CheckInvariantsWith(a: AgentValue, now: Time, invs: seq<Invariant>) returns (v: Option<Violation>)
    ensures v == FirstViolation(invs, a, now)
  {
    for k := 0 to |invs|
      invariant FirstViolation(invs, a, now) == FirstViolation(invs[k..], a, now)
    {
      v := Check(invs[k], a, now);
      if v != None { return; }
      assert invs[k..][1..] == invs[k + 1..];
    }
    v := None;
  }

  /** All violations of a list, in its order and with its repetitions. */
  function Violations(invs: seq<Invariant>, a: AgentValue, now: Time): seq<Violation> {
    if |invs| == 0 then []
    else
      var last := invs[|invs| - 1];
      Violations(invs[..|invs| - 1], a, now) + (if Holds(last, a, now) then [] else [Violation(last)])
  }

  /** CheckInvariantsAll collects all of them, in order; its first is the one that CheckInvariantsWith reports. */
  method CheckInvariantsAll(a: AgentValue, now: Time, invs: seq<Invariant>) returns (out: seq<Violation>)
    ensures out == Violations(invs, a, now)
    ensures forall v :: v in out <==> v.rule in invs && !Holds(v.rule, a, now)
    ensures FirstViolation(invs, a, now) == if |out| == 0 then None else Some(out[0])
  {
    out := [];
    for k := 0 to |invs|
      invariant out == Violations(invs[..k], a, now)
      invariant forall v :: v in out <==> v.rule in invs[..k] && !Holds(v.rule, a, now)
      invariant FirstViolation(invs, a, now) == if |out| == 0 then FirstViolation(invs[k..], a, now) else Some(out[0])
    {
      var v := Check(invs[k], a, now);
      assert invs[k..][1..] == invs[k + 1..];
      assert invs[..k + 1][..k] == invs[..k];
      if v != None { out := out + [v.value]; }
    }
    assert invs[..|invs|] == invs;
  }

  ghost predicate AllHold(a: AgentValue, now: Time, selfDid: Option<string>) {
    forall inv :: inv in DefaultInvariants(selfDid) ==> Holds(inv, a, now)
  }

  lemma AllHoldMeans(a: AgentValue, now: Time, selfDid: Option<string>)
    ensures AllHold(a, now, selfDid) <==>
      && IsValidState(a.state)
      && (selfDid == None || a.lastUpgradeBy == "" || Some(a.lastUpgradeBy) != selfDid)
      && !ExpiredAndSet(a.tempPermissions, a.permissions, now)
      && Within(a.permissions, a.level)
      && (a.expiresAt == None || !Before(a.expiresAt.value, a.registeredAt))
  {
    var invs := DefaultInvariants(selfDid);
    assert StatusLegal in invs && NoSelfUpgrade(selfDid) in invs && TempPermsExpire in invs;
    assert PermsWithinLevel in invs && ExpiresAfterRegistered in invs;
    if IsValidState(a.state)
      && (selfDid == None || a.lastUpgradeBy == "" || Some(a.lastUpgradeBy) != selfDid)
      && !ExpiredAndSet(a.tempPermissions, a.permissions, now)
      && Within(a.permissions, a.level)
      && (a.expiresAt == None || !Before(a.expiresAt.value, a.registeredAt))
    {
      forall inv | inv in invs ensures Holds(inv, a, now) {
        match inv
        case StatusLegal =>
        case NoSelfUpgrade(_) =>
        case TempPermsExpire =>
        case PermsWithinLevel =>
        case ExpiresAfterRegistered =>
      }
    }
  }

  // ---------------------------------------------------------------------
  // The entity's methods as functions: the new value, and the error if any
  // ---------------------------------------------------------------------

  datatype Effect = Effect(agent: AgentValue, error: Option<DomainError>)

  function Refuse(a: AgentValue, e: DomainError): Effect { Effect(a, Some(e)) }

  function Done(a: AgentValue): Effect { Effect(a, None) }

  function ActivateEffect(a: AgentValue, now: Time): Effect {
    if a.state != Registered then Refuse(a, BadTransition) else Done(a.(state := Active, updatedAt := now))
  }

  function BanEffect(a: AgentValue, reason: string, now: Time): Effect {
    if a.state == Banned || a.state == Unregistered then Refuse(a, BadTransition)
    else if reason == "" then Refuse(a, EmptyBanReason)
    else Done(a.(state := Banned, banReason := reason, bannedAt := Some(now), updatedAt := now))
  }

  function UnbanEffect(a: AgentValue, now: Time): Effect {
    if a.state != Banned then Refuse(a, BadTransition)
    else Done(a.(state := Active, banReason := "", bannedAt := None, updatedAt := now))
  }

  function RaiseEffect(a: AgentValue, newLevel: Level, now: Time): Effect {
    if !ValidLevel(newLevel) then Refuse(a, BadLevel)
    else if newLevel <= a.level then Refuse(a, BadLevel)
    else if newLevel != a.level + 1 then Refuse(a, BadLevel)
    else Done(a.(level := newLevel, updatedAt := now))
  }

  function GrantEffect(a: AgentValue, bit: bv64): Effect {
    if bit > 63 then Refuse(a, BitOutOfRange)
    else if !Allows(a.level, bit) then Refuse(a, ExceedsLevel)
    else Done(a.(permissions := WithBit(a.permissions, bit)))
  }

  function RevokeEffect(a: AgentValue, bit: bv64): Effect {
    if bit > 63 then Refuse(a, BitOutOfRange)
    else Done(a.(permissions := WithoutBit(a.permissions, bit)))
  }

  // ---------------------------------------------------------------------
  // UpgradeAgent
  // ---------------------------------------------------------------------

  datatype UpgradeInput = UpgradeInput(
    newLevel: Level, newPerms: Mask, operatorDid: string, agentSelfDid: string, now: Time, reason: string)

  datatype UpgradedEvent = UpgradedEvent(
    eventId: string, agentUuid: string, operatorDid: string, occurredAt: Time,
    oldLevel: Level, newLevel: Level, oldPerms: Mask, newPerms: Mask, reason: string)

  function UpgradeEventId(uuid: string, now: Time): string { uuid + ":upgrade:" + Format(now) }

  /** The checks before the entity is touched, in order. */
  function UpgradeRefusal(a: AgentValue, i: UpgradeInput): Option<DomainError> {
    if i.operatorDid == "" then Some(EmptyOperator)
    else if IsZero(i.now) then Some(NoTime)
    else if a.state != Active && a.state != Registered then Some(UpgradeState)
    else if i.agentSelfDid != "" && i.operatorDid == i.agentSelfDid then Some(SelfUpgrade)
    else RaiseRefusal(a.level, a.permissions, i.newLevel, i.newPerms)
  }

  function RaiseRefusal(level: Level, perms: Mask, newLevel: Level, newPerms: Mask): Option<DomainError> {
    if !ValidLevel(newLevel) then Some(BadLevel)
    else if newLevel <= level then Some(BadLevel)
    else if newLevel != level + 1 then Some(BadLevel)
    else if !Within(Merge(perms, newPerms), newLevel) then Some(ExceedsLevel)
    else None
  }

  function Upgraded(a: AgentValue, i: UpgradeInput): AgentValue {
    a.(level := i.newLevel, permissions := Merge(a.permissions, i.newPerms), lastUpgradeBy := i.operatorDid,
       updatedAt := i.now)
  }

  function UpgradeEvent(a: AgentValue, i: UpgradeInput): UpgradedEvent {
    UpgradedEvent(UpgradeEventId(a.uuid, i.now), a.uuid, i.operatorDid, i.now,
                  a.level, i.newLevel, a.permissions, Merge(a.permissions, i.newPerms), i.reason)
  }

  datatype UpgradeOutcome = UpgradeOutcome(agent: AgentValue, result: Result<UpgradedEvent, DomainError>)

  /** The entity has been changed when the invariants are checked again and the event is built: an error from
      there on leaves it changed. */
  function UpgradeAgent(a: AgentValue, i: UpgradeInput): UpgradeOutcome {
    match UpgradeRefusal(a, i)
    case Some(e) => UpgradeOutcome(a, Err(e))
    case None =>
      var a' := Upgraded(a, i);
      match FirstViolation(DefaultInvariants(None), a', i.now)
      case Some(v) => UpgradeOutcome(a', Err(InvariantFailed(v)))
      case None =>
        if IsZeroUuid(a.uuid) then UpgradeOutcome(a', Err(EventRefused))
        else UpgradeOutcome(a', Ok(UpgradeEvent(a, i)))
  }

  // ---------------------------------------------------------------------
  // The entity as an object
  // ---------------------------------------------------------------------

  class Agent {
    const uuid: string
    const owner: string
    var level: Level
    var state: AgentState
    var banReason: string
    const publicKey: string
    var permissions: Mask
    const registeredAt: Time
    var updatedAt: Time
    var bannedAt: Option<Time>
    var expiresAt: Option<Time>
    var lastUpgradeBy: string
    var tempPermissions: map<BitIndex, Time>

    constructor (v: AgentValue)
      ensures Value() == v
    {
      uuid, owner, level, state, banReason := v.uuid, v.owner, v.level, v.state, v.banReason;
      publicKey, permissions, registeredAt, updatedAt := v.publicKey, v.permissions, v.registeredAt, v.updatedAt;
      bannedAt, expiresAt := v.bannedAt, v.expiresAt;
      lastUpgradeBy, tempPermissions := v.lastUpgradeBy, v.tempPermissions;
    }

    function Value(): AgentValue
      reads this
    {
      AgentValue(uuid, owner, level, state, banReason, publicKey, permissions, registeredAt, updatedAt,
                 bannedAt, expiresAt, lastUpgradeBy, tempPermissions)
    }

    method Activate(now: Time) returns (error: Option<DomainError>)
      modifies this
      ensures Effect(Value(), error) == ActivateEffect(old(Value()), now)
      ensures error == if old(state) == Registered then None else Some(BadTransition)
      ensures Value() == if error == None then old(Value()).(state := Active, updatedAt := now) else old(Value())
    {
      if state != Registered { return Some(BadTransition); }
      state := Active;
      updatedAt := now;
      error := None;
    }

    method Ban(reason: string, now: Time) returns (error: Option<DomainError>)
      modifies this
      ensures Effect(Value(), error) == BanEffect(old(Value()), reason, now)
      ensures error == if old(state) == Banned || old(state) == Unregistered then Some(BadTransition)
                       else if reason == "" then Some(EmptyBanReason) else None
      ensures Value() ==
              if error == None then
                old(Value()).(state := Banned, banReason := reason, bannedAt := Some(now), updatedAt := now)
              else old(Value())
    {
      if state == Banned || state == Unregistered { return Some(BadTransition); }
      if reason == "" { return Some(EmptyBanReason); }
      state := Banned;
      banReason := reason;
      bannedAt := Some(now);
      updatedAt := now;
      error := None;
    }

    method Unban(now: Time) returns (error: Option<DomainError>)
      modifies this
      ensures Effect(Value(), error) == UnbanEffect(old(Value()), now)
      ensures error == if old(state) == Banned then None else Some(BadTransition)
      ensures Value() ==
              if error == None then old(Value()).(state := Active, banReason := "", bannedAt := None, updatedAt := now)
              else old(Value())
    {
      if state != Banned { return Some(BadTransition); }
      state := Active;
      banReason := "";
      bannedAt := None;
      updatedAt := now;
      error := None;
    }

    method Upgrade(newLevel: Level, now: Time) returns (error: Option<DomainError>)
      modifies this
      ensures Effect(Value(), error) == RaiseEffect(old(Value()), newLevel, now)
      ensures error == if newLevel as int == old(level) as int + 1 <= 7 then None else Some(BadLevel)
      ensures Value() == if error == None then old(Value()).(level := newLevel, updatedAt := now) else old(Value())
    {
      if !ValidLevel(newLevel) { return Some(BadLevel); }
      if newLevel <= level { return Some(BadLevel); }
      if newLevel != level + 1 { return Some(BadLevel); }
      level := newLevel;
      updatedAt := now;
      error := None;
    }

    method Grant(bit: bv64) returns (error: Option<DomainError>)
      modifies this
      ensures Effect(Value(), error) == GrantEffect(old(Value()), bit)
      ensures error == None ==> Value() == old(Value()).(permissions := permissions)
      ensures error != None ==> Value() == old(Value()) && (error == Some(BitOutOfRange) <==> bit > 63)
      ensures error != None && bit <= 63 ==> error == Some(ExceedsLevel)
    {
      if bit > 63 { return Some(BitOutOfRange); }
      if !Allows(level, bit) { return Some(ExceedsLevel); }
      permissions := WithBit(permissions, bit);
      error := None;
    }

    method Revoke(bit: bv64) returns (error: Option<DomainError>)
      modifies this
      ensures Effect(Value(), error) == RevokeEffect(old(Value()), bit)
      ensures error == if bit > 63 then Some(BitOutOfRange) else None
      ensures Value() == if error == None then old(Value()).(permissions := permissions) else old(Value())
    {
      if bit > 63 { return Some(BitOutOfRange); }
      permissions := WithoutBit(permissions, bit);
      error := None;
    }

    /** Whether the bit is a member of the set that the mask stands for. */
    method HasPermission(bit: bv64) returns (b: bool)
      ensures b <==> bit in Bits(permissions)
    {
      if bit > 63 { return false; }
      b := permissions & Bit(bit) != 0;
    }
  }

  /** The checks of the upgrade rule, in order; they only read the agent. */
  method CheckUpgrade(a: AgentValue, i: UpgradeInput) returns (error: Option<DomainError>)
    ensures error == UpgradeRefusal(a, i)
  {
    if i.operatorDid == "" { return Some(EmptyOperator); }
    if IsZero(i.now) { return Some(NoTime); }
    if a.state != Active && a.state != Registered { return Some(UpgradeState); }
    if i.agentSelfDid != "" && i.operatorDid == i.agentSelfDid { return Some(SelfUpgrade); }
    error := CheckRaise(a.level, a.permissions, i.newLevel, i.newPerms);
  }

  method CheckRaise(level: Level, perms: Mask, newLevel: Level, newPerms: Mask) returns (error: Option<DomainError>)
    ensures error == RaiseRefusal(level, perms, newLevel, newPerms)
  {
    if !ValidLevel(newLevel) { return Some(BadLevel); }
    if newLevel <= level { return Some(BadLevel); }
    if newLevel != level + 1 { return Some(BadLevel); }
    if !Within(Merge(perms, newPerms), newLevel) { return Some(ExceedsLevel); }
    error := None;
  }

  lemma RefusedOrRaisable(a: AgentValue, i: UpgradeInput)
    requires UpgradeRefusal(a, i) == None
    ensures RaiseEffect(a, i.newLevel, i.now) == Done(a.(level := i.newLevel, updatedAt := i.now))
  {
  }

  /** The upgrade rule on the object: check, change, check the invariants again, build the event. */
  method UpgradeAgentObject(agent: Agent?, i: UpgradeInput) returns (res: Result<UpgradedEvent, DomainError>)
    modifies agent
    ensures agent == null ==> res == Err(NilAgent)
    ensures agent != null ==> UpgradeOutcome(agent.Value(), res) == UpgradeAgent(old(agent.Value()), i)
  {
    if agent == null { return Err(NilAgent); }
    ghost var before := agent.Value();
    var refusal := CheckUpgrade(agent.Value(), i);
    if refusal != None { return Err(refusal.value); }
    RefusedOrRaisable(before, i);
    var merged := Merge(agent.permissions, i.newPerms);
    var oldLevel, oldPerms := agent.level, agent.permissions;
    var error := agent.Upgrade(i.newLevel, i.now);
    assert error == None;
    agent.permissions := merged;
    agent.lastUpgradeBy := i.operatorDid;
    agent.updatedAt := i.now;
    assert agent.Value() == Upgraded(before, i);
    var v := CheckInvariantsWith(agent.Value(), i.now, DefaultInvariants(None));
    if v != None { return Err(InvariantFailed(v.value)); }
    if IsZeroUuid(agent.uuid) { return Err(EventRefused); }
    res := Ok(UpgradedEvent(UpgradeEventId(agent.uuid, i.now), agent.uuid, i.operatorDid, i.now,
                            oldLevel, i.newLevel, oldPerms, merged, i.reason));
  }
}
