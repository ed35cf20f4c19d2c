/** Domain events as outbox envelopes (internal/domain/outbox.go, internal/domain/events.go) and the registration
    rule that makes the first of them (internal/domain/register.go). The idempotency key is the unique column of the
    outbox table (ent/schema/outbox_event.go). */
module Outbox {
  import opened Prelude
  import opened Records
  import opened Permissions
  import opened UuidText
  import opened GoTime
  import opened DomainAgent
  import opened DomainRuns

  datatype Event =
    | RegisteredEvent(eventId: string, agentUuid: string, operatorDid: string, occurredAt: Time, ownerDid: string,
                      level: Level)
    | UpgradedEventV1(upgrade: UpgradedEvent)
    | BannedEvent(eventId: string, agentUuid: string, operatorDid: string, occurredAt: Time, reason: string,
                  banExpiresAt: Option<Time>)
    | RevokedEvent(eventId: string, agentUuid: string, operatorDid: string, occurredAt: Time, reason: string)

  datatype Kind = RegisteredKind | UpgradedKind | BannedKind | RevokedKind

  function KindOf(e: Event): Kind {
    match e
    case RegisteredEvent(_, _, _, _, _, _) => RegisteredKind
    case UpgradedEventV1(_) => UpgradedKind
    case BannedEvent(_, _, _, _, _, _) => BannedKind
    case RevokedEvent(_, _, _, _, _) => RevokedKind
  }

  function EventId(e: Event): string { if e.UpgradedEventV1? then e.upgrade.eventId else e.eventId }

  function AgentUuid(e: Event): string { if e.UpgradedEventV1? then e.upgrade.agentUuid else e.agentUuid }

  function KindText(k: Kind): string {
    match k
    case RegisteredKind => "registered"
    case UpgradedKind => "upgraded"
    case BannedKind => "banned"
    case RevokedKind => "revoked"
  }

  function EventType(k: Kind): string { "agent." + KindText(k) + ".v1" }

  datatype Envelope = Envelope(aggregateType: string, aggregateId: string, eventType: string, payload: Event,
                               idempotencyKey: string)

  function KeyText(uuid: string, kind: Kind, eventId: string): string {
    uuid + ":" + KindText(kind) + ":" + eventId
  }

  function FromDomainEvent(e: Event): Envelope {
    Envelope("agent", AgentUuid(e), EventType(KindOf(e)), e, KeyText(AgentUuid(e), KindOf(e), EventId(e)))
  }

  /** The envelope of each kind of event. */
  lemma EnvelopeIs(e: Event)
    ensures var v := FromDomainEvent(e);
      && v.aggregateType == "agent" && v.payload == e
      && (match e
          case RegisteredEvent(id, uuid, _, _, _, _) =>
            && v.aggregateId == uuid && v.eventType == "agent.registered.v1"
            && v.idempotencyKey == uuid + ":registered:" + id
          case UpgradedEventV1(u) =>
            && v.aggregateId == u.agentUuid && v.eventType == "agent.upgraded.v1"
            && v.idempotencyKey == u.agentUuid + ":upgraded:" + u.eventId
          case BannedEvent(id, uuid, _, _, _, _) =>
            && v.aggregateId == uuid && v.eventType == "agent.banned.v1"
            && v.idempotencyKey == uuid + ":banned:" + id
          case RevokedEvent(id, uuid, _, _, _) =>
            && v.aggregateId == uuid && v.eventType == "agent.revoked.v1"
            && v.idempotencyKey == uuid + ":revoked:" + id)
  {
    KeyTextIs(AgentUuid(e), KindOf(e), EventId(e));
    hide KeyText;
    assert "agent." + "registered" + ".v1" == "agent.registered.v1";
    assert "agent." + "upgraded" + ".v1" == "agent.upgraded.v1";
    assert "agent." + "banned" + ".v1" == "agent.banned.v1" && "agent." + "revoked" + ".v1" == "agent.revoked.v1";
  }

  lemma KeyTextIs(uuid: string, kind: Kind, id: string)
    ensures KeyText(uuid, kind, id) ==
      match kind
      case RegisteredKind => uuid + ":registered:" + id
      case UpgradedKind => uuid + ":upgraded:" + id
      case BannedKind => uuid + ":banned:" + id
      case RevokedKind => uuid + ":revoked:" + id
  {
    Bracketed(uuid, KindText(kind), id);
    assert ":" + "registered" + ":" == ":registered:" && ":" + "upgraded" + ":" == ":upgraded:";
    assert ":" + "banned" + ":" == ":banned:" && ":" + "revoked" + ":" == ":revoked:";
  }

  lemma Bracketed(a: string, b: string, c: string)
    ensures a + ":" + b + ":" + c == a + (":" + b + ":") + c
  {
  }

  // ---------------------------------------------------------------------
  // Keys are uniquely decodable
  // ---------------------------------------------------------------------

  predicate ColonFree(s: string) { ':' !in s }

  /** A colon-free head is determined by the text up to the first colon. */
  lemma {:induction false} HeadUnique(a: string, x: string, b: string, y: string)
    requires ColonFree(a) && ColonFree(b) && a + ":" + x == b + ":" + y
    ensures a == b && x == y
  {
    var s, t := a + ":" + x, b + ":" + y;
    assert s[0] == (if |a| == 0 then ':' else a[0]);
    assert t[0] == (if |b| == 0 then ':' else b[0]);
    assert (|a| > 0 ==> a[0] in a) && (|b| > 0 ==> b[0] in b);
    if |a| == 0 {
      assert x == s[1..] && y == t[1..];
    } else {
      assert s[1..] == a[1..] + ":" + x && t[1..] == b[1..] + ":" + y;
      HeadUnique(a[1..], x, b[1..], y);
      assert a == [a[0]] + a[1..] && b == [b[0]] + b[1..];
    }
  }

  lemma KindTexts(j: Kind, k: Kind)
    ensures ColonFree(KindText(k)) && |KindText(k)| <= 10
    ensures KindText(j) == KindText(k) <==> j == k
  {
    assert |KindText(RegisteredKind)| == 10 && |KindText(UpgradedKind)| == 8;
    assert |KindText(BannedKind)| == 6 && |KindText(RevokedKind)| == 7;
  }

  /** Agents u and v have two different events whose keys read alike. Event ids are never empty. */
  ghost predicate KeysCollide(u: string, v: string) {
    exists j: Kind, i: string, k: Kind, e: string ::
      i != "" && e != "" && KeyText(u, j, i) == KeyText(v, k, e) && !(u == v && j == k && i == e)
  }

  /** UUID v begins with UUID u and one of the kinds, between colons. */
  predicate Swallows(u: string, v: string) {
    exists j: Kind :: u + ":" + KindText(j) + ":" <= v + ":"
  }

  lemma SwallowingCollides(u: string, v: string)
    requires Swallows(u, v)
    ensures KeysCollide(u, v) && KeysCollide(v, u)
  {
    hide KindText;
    var j: Kind :| u + ":" + KindText(j) + ":" <= v + ":";
    var p := u + ":" + KindText(j) + ":";
    var rest := (v + ":")[|p|..];
    assert v + ":" == p + rest;
    var i := rest + KindText(RegisteredKind) + ":e";
    assert KeyText(v, RegisteredKind, "e") == (v + ":") + (KindText(RegisteredKind) + ":e");
    assert KeyText(u, j, i) == p + i;
    assert i[|i| - 1] == 'e';
    assert KeyText(u, j, i) == KeyText(v, RegisteredKind, "e");
  }

  /** Equal keys of UUIDs of different lengths: the longer one swallows the shorter. */
  lemma ShorterIsSwallowed(u: string, j: Kind, i: string, v: string, k: Kind, e: string)
    requires KeyText(u, j, i) == KeyText(v, k, e) && |u| < |v|
    ensures Swallows(u, v)
  {
    hide KindText;
    KindTexts(k, j);
    var text, kind := KeyText(u, j, i), KindText(j);
    var p := u + ":" + kind + ":";
    assert text == p + i;
    assert text == (v + ":") + (KindText(k) + ":" + e);
    assert text[..|v| + 1] == v + ":" && text[|v|] == ':';
    forall x | |u| < x < |p| - 1 ensures text[x] != ':' {
      var y := x - |u| - 1;
      assert p[x] == kind[y] && text[x] == p[x];
      assert kind[y] in kind;
    }
    assert text[..|p|] == p;
    assert text[..|v| + 1][..|p|] == p;
  }

  lemma EqualHeads(u: string, x: string, v: string, y: string)
    requires |u| == |v| && u + ":" + x == v + ":" + y
    ensures u == v && x == y
  {
    var s, t := u + ":" + x, v + ":" + y;
    assert u == s[..|u|] && v == t[..|v|] && x == s[|u| + 1..] && y == t[|v| + 1..];
  }

  lemma SameUuidDecodes(u: string, j: Kind, i: string, v: string, k: Kind, e: string)
    requires KeyText(u, j, i) == KeyText(v, k, e) && |u| == |v|
    ensures u == v && j == k && i == e
  {
    hide KindText;
    KindTexts(j, k);
    KindTexts(k, j);
    var x, y := KindText(j) + ":" + i, KindText(k) + ":" + e;
    assert KeyText(u, j, i) == u + ":" + x && KeyText(v, k, e) == v + ":" + y;
    EqualHeads(u, x, v, y);
    HeadUnique(KindText(j), i, KindText(k), e);
  }

  /** Keys of two agents, whatever their UUIDs look like, are uniquely decodable unless one UUID swallows the other:
      exactly then two different events share a key. */
  lemma KeysCollideIff(u: string, v: string)
    ensures KeysCollide(u, v) <==> Swallows(u, v) || Swallows(v, u)
  {
    hide KeyText, KindText;
    if Swallows(u, v) { SwallowingCollides(u, v); }
    if Swallows(v, u) { SwallowingCollides(v, u); }
    if KeysCollide(u, v) {
      var j: Kind, i: string, k: Kind, e: string :|
        i != "" && e != "" && KeyText(u, j, i) == KeyText(v, k, e) && !(u == v && j == k && i == e);
      if |u| < |v| {
        ShorterIsSwallowed(u, j, i, v, k, e);
      } else if |v| < |u| {
        ShorterIsSwallowed(v, k, e, u, j, i);
      } else {
        SameUuidDecodes(u, j, i, v, k, e);
      }
    }
  }

  lemma SwallowingNeedsColon(u: string, v: string)
    requires Swallows(u, v)
    ensures !ColonFree(v)
  {
    var j: Kind :| u + ":" + KindText(j) + ":" <= v + ":";
    var p := u + ":" + KindText(j) + ":";
    assert |KindText(j)| > 0;
    assert p[|u|] == ':' && p[|u|] == (v + ":")[|u|] == v[|u|];
    assert v[|u|] in v;
  }

  /** Equal keys of agents whose UUIDs hold no colon name the same agent, the same kind and the same event. */
  lemma KeysDecode(u: string, j: Kind, i: string, v: string, k: Kind, e: string)
    requires ColonFree(u) && ColonFree(v)
    ensures KeyText(u, j, i) == KeyText(v, k, e) <==> u == v && j == k && i == e
  {
    hide KeyText, Swallows;
    if Swallows(u, v) { SwallowingNeedsColon(u, v); }
    if Swallows(v, u) { SwallowingNeedsColon(v, u); }
    if KeyText(u, j, i) == KeyText(v, k, e) {
      if |u| < |v| { ShorterIsSwallowed(u, j, i, v, k, e); }
      if |v| < |u| { ShorterIsSwallowed(v, k, e, u, j, i); }
      SameUuidDecodes(u, j, i, v, k, e);
    }
  }

  /** For valid agents: two envelopes carry the same key exactly when they are of one agent, kind and event id. */
  lemma EnvelopesDecode(e: Event, f: Event)
    requires MatchesUuid(AgentUuid(e)) && MatchesUuid(AgentUuid(f))
    ensures FromDomainEvent(e).idempotencyKey == FromDomainEvent(f).idempotencyKey <==>
              AgentUuid(e) == AgentUuid(f) && KindOf(e) == KindOf(f) && EventId(e) == EventId(f)
  {
    UuidShape(AgentUuid(e));
    UuidShape(AgentUuid(f));
    KeysDecode(AgentUuid(e), KindOf(e), EventId(e), AgentUuid(f), KindOf(f), EventId(f));
  }

  /** Without that condition keys collide: a UUID may swallow the kind. */
  lemma ColonsCollide()
    ensures KeyText("a", RegisteredKind, "b:banned:c") == KeyText("a:registered:b", BannedKind, "c")
  {
  }

  // ---------------------------------------------------------------------
  // Registration
  // ---------------------------------------------------------------------

  datatype RegisterInput = RegisterInput(
    ownerDid: string, owner: string, level: Level, publicKey: string, operatorDid: string, now: Time)

  datatype RegisterOutput = RegisterOutput(agent: AgentValue, event: Event)

  datatype RegisterFailure =
    | GeneratorFailed | AgentRefused(error: DomainError) | EventRefusedAtEnd | BadInput(error: DomainError)

  /** `generated` is what the UUID generator returns; None when it fails. */
  function RegisterAgent(generated: Option<string>, i: RegisterInput): Result<RegisterOutput, RegisterFailure> {
    if !ValidLevel(i.level) then Err(BadInput(BadLevel))
    else if i.publicKey == "" then Err(BadInput(EmptyPublicKey))
    else if i.operatorDid == "" then Err(BadInput(EmptyOperator))
    else if IsZero(i.now) then Err(BadInput(NoTime))
    else if generated == None then Err(GeneratorFailed)
    else match NewAgent(generated.value, i.owner, i.level, i.publicKey, i.now)
      case Err(e) => Err(AgentRefused(e))
      case Ok(a) =>
        match FirstViolation(DefaultInvariants(None), a, i.now)
        case Some(v) => Err(AgentRefused(InvariantFailed(v)))
        case None =>
          if generated.value == "" || IsZeroUuid(generated.value) || i.ownerDid == "" then Err(EventRefusedAtEnd)
          else
            var e := RegisteredEvent(generated.value, a.uuid, i.operatorDid, i.now, i.ownerDid, i.level);
            Ok(RegisterOutput(a, e))
  }

  lemma NothingPermitted(l: Level, now: Time)
    ensures Within(0, l) && !ExpiredAndSet(map[], 0, now)
  {
  }

  /** With the default generator a registration succeeds exactly when its input is complete; the agent is then
      valid, satisfies every invariant, and the event names it. */
  lemma RegistrationSucceedsIff(millis: int, random: seq<Byte>, i: RegisterInput)
    requires |random| == 8
    ensures var r := RegisterAgent(Some(UuidOf(millis, random)), i);
      && (r.Ok? <==> && ValidLevel(i.level) && i.publicKey != "" && i.operatorDid != "" && !IsZero(i.now)
                     && ValidOwner(i.owner) && i.ownerDid != "")
      && (r.Ok? ==>
            && MatchesUuid(r.value.agent.uuid) && AllHold(r.value.agent, i.now, None)
            && r.value.agent.state == Registered && r.value.agent.level == i.level
            && AgentUuid(r.value.event) == r.value.agent.uuid == EventId(r.value.event))
      && (r.Ok? ==>
            var uuid := UuidOf(millis, random);
            && r.value.agent == AgentValue(uuid, i.owner, i.level, Registered, "", i.publicKey, 0, i.now, i.now,
                                           None, None, "", map[])
            && r.value.event == RegisteredEvent(uuid, uuid, i.operatorDid, i.now, i.ownerDid, i.level))
  {
    var uuid := UuidOf(millis, random);
    GeneratedIsValid(millis, random);
    UuidShape(uuid);
    ValidUuidNotBlank(uuid);
    NothingPermitted(i.level, i.now);
    var made := NewAgent(uuid, i.owner, i.level, i.publicKey, i.now);
    NewAgentIs(uuid, i.owner, i.level, i.publicKey, i.now);
    if made.Ok? { AllHoldMeans(made.value, i.now, None); }
  }

  /** What each incomplete input is refused with, in the order of the checks. */
  lemma RegistrationErrors(generated: Option<string>, i: RegisterInput)
    ensures var r := RegisterAgent(generated, i);
      && (i.level as int > 7 ==> r == Err(BadInput(BadLevel)))
      && (i.level as int <= 7 && i.publicKey == "" ==> r == Err(BadInput(EmptyPublicKey)))
      && (i.level as int <= 7 && i.publicKey != "" && i.operatorDid == "" ==> r == Err(BadInput(EmptyOperator)))
      && (i.level as int <= 7 && i.publicKey != "" && i.operatorDid != "" ==>
            && (i.now.instant == 0 ==> r == Err(BadInput(NoTime)))
            && (i.now.instant != 0 && generated == None ==> r == Err(GeneratorFailed))
            && (i.now.instant != 0 && generated != None && !MatchesUuid(generated.value) ==>
                  r == Err(AgentRefused(BadUuid)))
            && (i.now.instant != 0 && generated != None && MatchesUuid(generated.value) && !ValidOwner(i.owner) ==>
                  r == Err(AgentRefused(BadOwner))))
  {
    LevelBoundIff(i.level);
    if generated != None { NewAgentIs(generated.value, i.owner, i.level, i.publicKey, i.now); }
    hide MatchesUuid, ValidOwner, ValidLevel, NewAgent, FirstViolation;
  }

  /** Two registrations make the same key exactly when the generator gave them the same millisecond and bytes. */
  lemma RegisterKeysEqualIff(s: int, r1: seq<Byte>, i: RegisterInput, t: int, r2: seq<Byte>, j: RegisterInput)
    requires -LIMIT_63 <= s < LIMIT_63 && -LIMIT_63 <= t < LIMIT_63 && |r1| == 8 && |r2| == 8
    requires RegisterAgent(Some(UuidOf(s, r1)), i).Ok? && RegisterAgent(Some(UuidOf(t, r2)), j).Ok?
    ensures var e := RegisterAgent(Some(UuidOf(s, r1)), i).value.event;
      var f := RegisterAgent(Some(UuidOf(t, r2)), j).value.event;
      (FromDomainEvent(e).idempotencyKey == FromDomainEvent(f).idempotencyKey) <==> (s == t && r1 == r2)
  {
    RegistrationSucceedsIff(s, r1, i);
    RegistrationSucceedsIff(t, r2, j);
    GeneratedEqualIff(s, t, r1, r2);
    hide RegisterAgent, UuidOf, MatchesUuid, AllHold;
    var e, f := RegisterAgent(Some(UuidOf(s, r1)), i).value.event, RegisterAgent(Some(UuidOf(t, r2)), j).value.event;
    EnvelopesDecode(e, f);
  }

  // ---------------------------------------------------------------------
  // The key column
  // ---------------------------------------------------------------------

  const MAX_KEY_LENGTH: nat := 128

  /** Registration keys fit: the event is named by the agent's UUID. */
  lemma RegisterKeyFits(e: Event)
    requires e.RegisteredEvent? && MatchesUuid(e.agentUuid) && e.eventId == e.agentUuid
    ensures 0 < |FromDomainEvent(e).idempotencyKey| <= 84 <= MAX_KEY_LENGTH
  {
    UuidShape(e.agentUuid);
  }

  /** The event that an upgrade of agent `uuid` at instant t makes. */
  function UpgradeKey(uuid: string, t: Time): string {
    KeyText(uuid, UpgradedKind, UpgradeEventId(uuid, t))
  }

  lemma UpgradeKeyIsTheEvents(a: AgentValue, i: UpgradeInput)
    requires UpgradeAgent(a, i).result.Ok?
    ensures FromDomainEvent(UpgradedEventV1(UpgradeAgent(a, i).result.value)).idempotencyKey ==
            UpgradeKey(a.uuid, i.now)
  {
  }

  /** An upgrade key fits the column exactly in the years whose text leaves it room: 22 characters for a UUID with
      its hyphens. Keys of four-digit years have at most 110 characters. */
  lemma UpgradeKeyFits(uuid: string, t: Time)
    requires MatchesUuid(uuid)
    ensures 0 < |UpgradeKey(uuid, t)| && 22 <= 94 - 2 * |uuid|
    ensures |UpgradeKey(uuid, t)| <= MAX_KEY_LENGTH <==> YearFits(Year(t), 94 - 2 * |uuid|)
    ensures 0 <= Year(t) < 10000 ==> |UpgradeKey(uuid, t)| <= 110
  {
    hide Format, Year, KeyText, UpgradeKey, MatchesUuid, YearFits;
    UuidShape(uuid);
    FormatLengthIff(t, 94 - 2 * |uuid|);
    UpgradeKeyLength(uuid, t);
  }

  lemma UpgradeKeyLength(uuid: string, t: Time)
    ensures |UpgradeKey(uuid, t)| == 2 * |uuid| + 19 + |Format(t)|
  {
    hide Format;
    assert |KindText(UpgradedKind)| == 8;
  }

  /** Two upgrades have the same key exactly when they are of the same agent and show the same millisecond on the wall
      clock, each at its own offset. */
  lemma UpgradeKeysEqualIff(u: string, s: Time, v: string, t: Time)
    requires MatchesUuid(u) && MatchesUuid(v)
    ensures UpgradeKey(u, s) == UpgradeKey(v, t) <==> u == v && WallMillis(s) == WallMillis(t)
  {
    UuidShape(u);
    UuidShape(v);
    KeysDecode(u, UpgradedKind, UpgradeEventId(u, s), v, UpgradedKind, UpgradeEventId(v, t));
    if UpgradeKey(u, s) == UpgradeKey(v, t) {
      var p := u + ":upgrade:";
      assert UpgradeEventId(u, s)[|p|..] == Format(s) && UpgradeEventId(u, t)[|p|..] == Format(t);
    }
    FormatInjective(s, t);
  }

  function KeyOfUpgrade(e: UpgradedEvent): string {
    FromDomainEvent(UpgradedEventV1(e)).idempotencyKey
  }

  /** Any two upgrades that succeed in one run, whatever happens before, between and after them, make events with the
      same key exactly when they show the same wall-clock millisecond. */
  lemma UpgradesOfARunCollideIff(a: AgentValue, ops: seq<AgentOp>, i: nat, j: nat)
    requires MatchesUuid(a.uuid) && SucceedsAt(a, ops, i) && SucceedsAt(a, ops, j)
    ensures KeyOfUpgrade(EventAt(a, ops, i)) == KeyOfUpgrade(EventAt(a, ops, j)) <==>
              WallMillis(ops[i].input.now) == WallMillis(ops[j].input.now)
  {
    hide Run, UpgradeAgent, MatchesUuid, UpgradeKey, KeyText;
    var x, y := Run(a, ops[..i]), Run(a, ops[..j]);
    RunKeepsUuid(a, ops[..i]);
    RunKeepsUuid(a, ops[..j]);
    UpgradeKeyIsTheEvents(x, ops[i].input);
    UpgradeKeyIsTheEvents(y, ops[j].input);
    UpgradeKeysEqualIff(a.uuid, ops[i].input.now, a.uuid, ops[j].input.now);
  }

  /** No two successful upgrades of the run have the same key. */
  ghost predicate DistinctKeys(a: AgentValue, ops: seq<AgentOp>) {
    forall i: nat, j: nat :: i < j && SucceedsAt(a, ops, i) && SucceedsAt(a, ops, j) ==>
      KeyOfUpgrade(EventAt(a, ops, i)) != KeyOfUpgrade(EventAt(a, ops, j))
  }

  /** The table's unique column accepts every upgrade of a run if and only if no two successes show the same wall-clock
      millisecond, */
  lemma RunOfUpgradesHasDistinctKeys(a: AgentValue, ops: seq<AgentOp>)
    requires MatchesUuid(a.uuid)
    ensures DistinctKeys(a, ops) <==>
              forall i: nat, j: nat :: i < j && SucceedsAt(a, ops, i) && SucceedsAt(a, ops, j) ==>
                WallMillis(ops[i].input.now) != WallMillis(ops[j].input.now)
  {
    hide Run, UpgradeAgent, KeyOfUpgrade, MatchesUuid, WallMillis;
    forall i: nat, j: nat | i < j && SucceedsAt(a, ops, i) && SucceedsAt(a, ops, j)
      ensures KeyOfUpgrade(EventAt(a, ops, i)) == KeyOfUpgrade(EventAt(a, ops, j)) <==>
                WallMillis(ops[i].input.now) == WallMillis(ops[j].input.now)
    {
      UpgradesOfARunCollideIff(a, ops, i, j);
    }
  }

  /** in particular when all of them are at one offset and their instants are milliseconds apart. */
  lemma OneOffsetHasDistinctKeys(a: AgentValue, ops: seq<AgentOp>, offset: int)
    requires MatchesUuid(a.uuid)
    requires forall i: nat :: SucceedsAt(a, ops, i) ==> ops[i].input.now.offset == offset
    requires forall i: nat, j: nat :: i < j && SucceedsAt(a, ops, i) && SucceedsAt(a, ops, j) ==>
               ops[i].input.now.instant / NANOS_PER_MILLI < ops[j].input.now.instant / NANOS_PER_MILLI
    ensures DistinctKeys(a, ops)
  {
    RunOfUpgradesHasDistinctKeys(a, ops);
    hide DistinctKeys, WallMillis;
    forall i: nat, j: nat | i < j && SucceedsAt(a, ops, i) && SucceedsAt(a, ops, j)
      ensures WallMillis(ops[i].input.now) != WallMillis(ops[j].input.now)
    {
      WallMillisMeans(ops[i].input.now);
      WallMillisMeans(ops[j].input.now);
    }
  }

  /** Half past one, four hours behind UTC; and half past one an hour later, the clock set back. */
  const SUMMER := Time(19800 * NANOS_PER_SECOND, -14400)
  const WINTER := Time(23400 * NANOS_PER_SECOND, -18000)

  const SET_BACK_RUN: seq<AgentOp> := [
    UpgradeOp(UpgradeInput(1, 0, "did:op", "", SUMMER, "")), UpgradeOp(UpgradeInput(2, 0, "did:op", "", WINTER, ""))
  ]

  /** An upgrade of an agent without permissions that nothing stands against. */
  lemma PlainUpgradeSucceeds(a: AgentValue, i: UpgradeInput)
    requires MatchesUuid(a.uuid) && a.state == Active && a.permissions == 0 && a.tempPermissions == map[]
    requires a.expiresAt == None && a.level < 7 && i.newLevel == a.level + 1 && i.newPerms == 0
    requires i.operatorDid != "" && i.agentSelfDid == "" && !IsZero(i.now)
    ensures UpgradeAgent(a, i).result.Ok? && UpgradeAgent(a, i).agent == Upgraded(a, i)
    ensures Upgraded(a, i).permissions == 0
  {
    hide MatchesUuid, FirstViolation;
    NothingPermitted(a.level, i.now);
    NothingPermitted(i.newLevel, i.now);
    AllHoldMeans(a, i.now, None);
    assert Merge(a.permissions, i.newPerms) == 0;
    UpgradeSucceeds(a, i);
  }

  /** Two upgrades an hour apart, one before and one after the clock is set back: instants increase, keys are equal. */
  lemma SetBackClockCollides(owner: string)
    ensures var a := AgentValue("00000000000000000000000000000000", owner, 0, Active, "", "pk", 0, SUMMER, SUMMER,
                                None, None, "", map[]);
      && MatchesUuid(a.uuid) && SucceedsAt(a, SET_BACK_RUN, 0) && SucceedsAt(a, SET_BACK_RUN, 1)
      && Before(SET_BACK_RUN[0].input.now, SET_BACK_RUN[1].input.now)
      && KeyOfUpgrade(EventAt(a, SET_BACK_RUN, 0)) == KeyOfUpgrade(EventAt(a, SET_BACK_RUN, 1))
      && !DistinctKeys(a, SET_BACK_RUN)
  {
    hide KeyOfUpgrade, UpgradeAgent, MatchesUuid;
    var a := AgentValue("00000000000000000000000000000000", owner, 0, Active, "", "pk", 0, SUMMER, SUMMER,
                        None, None, "", map[]);
    BlankDigitsMatch();
    var i, j := SET_BACK_RUN[0].input, SET_BACK_RUN[1].input;
    PlainUpgradeSucceeds(a, i);
    PlainUpgradeSucceeds(Upgraded(a, i), j);
    assert SET_BACK_RUN[..0] == [] && Run(a, []) == a;
    assert SET_BACK_RUN[..1] == [UpgradeOp(i)] && [UpgradeOp(i)][1..] == [];
    assert Run(a, [UpgradeOp(i)]) == Upgraded(a, i);
    assert SucceedsAt(a, SET_BACK_RUN, 0) && SucceedsAt(a, SET_BACK_RUN, 1);
    UpgradesOfARunCollideIff(a, SET_BACK_RUN, 0, 1);
  }

  lemma BlankDigitsMatch()
    ensures MatchesUuid("00000000000000000000000000000000")
  {
  }
}
