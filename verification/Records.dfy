/** The records that the backends exchange (core/backend/interface.go, core/chain_adapter/interface.go).
    Instants are integers on one clock; every call that reads the clock takes its reading as an argument. */
module Records {
  import opened Prelude

  type Instant = int

  /** Agent states. The source keeps them as strings; Illegal is any text that is none of the four. */
  datatype AgentState = Registered | Active | Banned | Unregistered | Illegal(text: string)

  function StateText(s: AgentState): string {
    match s
    case Registered => "registered"
    case Active => "active"
    case Banned => "banned"
    case Unregistered => "unregistered"
    case Illegal(t) => t
  }

  datatype AgentInfo = AgentInfo(
    uuid: string, owner: string, level: uint8, state: AgentState, permission: uint64,
    publicKey: string, txHash: string, registeredAt: Instant, updatedAt: Instant)

  datatype Action = RegisterAction | UpgradeAction | BanAction | UnbanAction | UnregisterAction

  datatype ChangeLog = ChangeLog(
    uuid: string, action: Action, actor: string, oldValue: string, newValue: string,
    reason: string, txHash: string, occurredAt: Instant)

  datatype RegisterRequest = RegisterRequest(
    owner: string, level: uint8, permission: uint64, publicKey: string)

  datatype AgentCredential = AgentCredential(
    uuid: string, owner: string, level: uint8, state: AgentState, permission: uint64,
    publicKey: string, txHash: string, createdAt: Instant, updatedAt: Instant)

  datatype BackendError = Unavailable | AgentNotFound | InvalidState | ChainFailure

  /** The four writes that a client asks of an existing agent. */
  datatype WriteOp = Upgrade(newLevel: uint8, reason: string) | Ban(reason: string) | Unban | Unregister
}
