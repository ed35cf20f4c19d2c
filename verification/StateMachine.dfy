/** The two transition tables: internal/domain/state.go and internal/domain/agent_status.go. */
module StateMachine {
  import opened Records

  predicate IsValidState(s: AgentState) { !s.Illegal? }

  const STATE_TRANSITION: map<AgentState, map<AgentState, bool>> := map[
    Registered := map[Active := true, Banned := true, Unregistered := true],
    Active := map[Banned := true, Unregistered := true],
    Banned := map[Active := true, Unregistered := true],
    Unregistered := map[]
  ]

  predicate Lookup<K(==)>(table: map<K, map<K, bool>>, from: K, to: K) {
    from in table && to in table[from] && table[from][to]
  }

  predicate CanTransition(from: AgentState, to: AgentState) {
    IsValidState(from) && IsValidState(to) && Lookup(STATE_TRANSITION, from, to)
  }

  datatype AgentStatus = Pending | ActiveStatus | BannedStatus | Revoked | UnknownStatus(text: string)

  function ToAgentState(s: AgentStatus): AgentState {
    match s
    case Pending => Registered
    case ActiveStatus => Active
    case BannedStatus => Banned
    case Revoked => Unregistered
    case UnknownStatus(_) => Illegal("")
  }

  function ToStatus(s: AgentState): AgentStatus {
    match s
    case Registered => Pending
    case Active => ActiveStatus
    case Banned => BannedStatus
    case Unregistered => Revoked
    case Illegal(_) => UnknownStatus("")
  }

  const ALLOWED_STATUS_TRANSITIONS: map<AgentStatus, map<AgentStatus, bool>> := map[
    Pending := map[ActiveStatus := true, Revoked := true, BannedStatus := true],
    ActiveStatus := map[BannedStatus := true, Revoked := true],
    BannedStatus := map[ActiveStatus := true, Revoked := true],
    Revoked := map[]
  ]

  predicate CanTransitionTo(from: AgentStatus, to: AgentStatus) {
    var fromState, toState := ToAgentState(from), ToAgentState(to);
    if fromState == Illegal("") || toState == Illegal("") then false
    else if from in ALLOWED_STATUS_TRANSITIONS && ToStatus(toState) in ALLOWED_STATUS_TRANSITIONS[from] then
      ALLOWED_STATUS_TRANSITIONS[from][ToStatus(toState)]
    else CanTransition(fromState, toState)
  }

  /** AllowedTransitions: the keys of the row, in whatever order the map yields them. */
  method AllowedTransitions(from: AgentStatus) returns (out: seq<AgentStatus>)
    ensures forall to :: to in out <==> CanTransitionTo(from, to)
    ensures forall i, j :: 0 <= i < j < |out| ==> out[i] != out[j]
  {
    out := [];
    if from !in ALLOWED_STATUS_TRANSITIONS {
      forall to ensures !CanTransitionTo(from, to) { StatusTableAgrees(from, to); }
      return;
    }
    var row := ALLOWED_STATUS_TRANSITIONS[from];
    var todo := row.Keys;
    while todo != {}
      invariant todo <= row.Keys
      invariant forall to :: to in out <==> to in row && to !in todo
      invariant forall i, j :: 0 <= i < j < |out| ==> out[i] != out[j]
      decreases |todo|
    {
      var s :| s in todo;
      out := out + [s];
      todo := todo - {s};
    }
    forall to ensures to in out <==> CanTransitionTo(from, to) { StatusTableAgrees(from, to); }
  }

  /** The business table and the state table decide alike, through the renaming. */
  lemma StatusTableAgrees(from: AgentStatus, to: AgentStatus)
    ensures CanTransitionTo(from, to) == CanTransition(ToAgentState(from), ToAgentState(to))
    ensures CanTransitionTo(from, to) <==>
              from in ALLOWED_STATUS_TRANSITIONS && to in ALLOWED_STATUS_TRANSITIONS[from]
    ensures CanTransitionTo(from, to) <==>
              && from in {Pending, ActiveStatus, BannedStatus} && to in {ActiveStatus, BannedStatus, Revoked}
              && from != to
    ensures ToAgentState(Pending) == Registered && ToAgentState(ActiveStatus) == Active
    ensures ToAgentState(BannedStatus) == Banned && ToAgentState(Revoked) == Unregistered
  {
    assert !to.UnknownStatus? ==> ToStatus(ToAgentState(to)) == to;
  }

  /** The edges, without the table: leave any live state for a different one, never back to Registered. */
  lemma TransitionMeaning(from: AgentState, to: AgentState)
    ensures CanTransition(from, to) <==>
              && from in {Registered, Active, Banned}
              && to in {Active, Banned, Unregistered}
              && from != to
  {
  }

  /** A path in the transition graph. */
  ghost predicate Path(states: seq<AgentState>) {
    forall i :: 0 < i < |states| ==> CanTransition(states[i - 1], states[i])
  }

  /** Unregistered is a sink and Registered a source of every path, however long. */
  lemma {:induction false} PathEnds(states: seq<AgentState>, i: nat)
    requires Path(states) && i < |states|
    ensures states[i] == Unregistered ==> i == |states| - 1
    ensures states[i] == Registered ==> i == 0
  {
    if i + 1 < |states| { assert CanTransition(states[i + 1 - 1], states[i + 1]); }
    if i > 0 { assert CanTransition(states[i - 1], states[i]); }
  }
}
