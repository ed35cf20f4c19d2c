# AgentID-Chain: a model of the identity backends and the agent domain

This project models, in Dafny, the part of AgentID-Chain that must keep identities right: the hybrid backend that
writes to a chain and mirrors to a local store, the local store with its audit log and owner index, the two bounded
worker pools, the domain agent with its permission masks and upgrade rule, the time-ordered UUIDs and outbox keys,
the keyword classifier and the migration check.

Code that works step by step in the source is a class or a method with loops here, and every such method is tied to
a function of the old state; the theorems are about those functions. Concurrency is a state machine whose moves are
the single accesses to shared state, and "every interleaving" is every sequence of enabled moves. Clocks, generated
UUIDs, random bytes, transaction hashes, chain outages and failing store writes are arguments.

| file | what it holds |
|---|---|
| `Records.dfy`, `Prelude.dfy` | the exchanged records; results, string order, sorting, decimal text |
| `StateMachine.dfy` | the two transition tables |
| `MemoryPersistence.dfy` | the in-memory store, with records as heap objects so that copying means something |
| `LocalBackend.dfy`, `AuditTrail.dfy` | the off-chain backend, and its whole runs |
| `InterleavedAudit.dfy` | its calls interleaved: what the audit log holds when registrations log outside the mutex |
| `Onchain.dfy`, `OnchainBatch.dfy` | the chain adapter and on-chain backend, and the concurrent batch read |
| `Hybrid.dfy` | the hybrid backend call by call, the batch read, the synchronisation pass |
| `Convergence.dfy` | when the mirror converges: the exact condition, write by write |
| `Interleaving.dfy` | the hybrid backend with all its calls interleaved: what the mirror may show, owner index, level bound |
| `Settling.dfy` | when interleaved runs converge: the exact condition, access by access |
| `SerialHybrid.dfy`, `SerialLocal.dfy` | calls that nobody interrupts: the interleaved models do then what the serialized ones say |
| `BatchRegister.dfy`, `Tally.dfy` | the batch-registration worker pool; sums over goroutines |
| `Permissions.dfy`, `DomainAgent.dfy`, `DomainRuns.dfy` | masks as sets, the agent entity and `UpgradeAgent`, its runs |
| `UuidText.dfy`, `GoTime.dfy`, `Outbox.dfy` | UUID text and order, the calendar behind event names, idempotency keys |
| `Classifier.dfy`, `MigrationGate.dfy` | the keyword classifier; the migration directory check |

## Where the code and its comments differ

The model follows the code.

- `core/backend/interface.go:115` says "+1 only"; `core/backend/local.go:253` accepts any strict increase.
- `core/backend/onchain.go:11` trusts the contract for the state machine, but the adapter
  (`core/chain_adapter/mock/mock.go:155`) stores any requested level, lower ones and those of banned agents included.
  "The mirror's level is at most the chain's" is therefore false (`Interleaving.DowngradePutsMirrorAhead`). What holds
  in every interleaving is `MirrorInventsNothing`. The mirror and everything on its way to it stay within the chain's
  levels exactly as long as no accepted update undercuts the store, a held copy or a pending upgrade
  (`BoundedIffNoUndercut`, `MirrorNeverAhead`); a downgrade that undercuts none of these is harmless
  (`HarmlessDowngrade`). The mirror itself ends ahead exactly when an access puts it ahead and nothing later sets the
  level (`MirrorAheadIff`).
- Convergence is conditional, with and without serialization, and the condition is exact. After any serialized run and
  one clean pass an agent equals the chain if and only if no write clobbers it for good (`MirrorConvergesIff`);
  `MissedBanThenUpgradeIsNeverRepaired` is a run in which one does. After any interleaved run and one clean pass an
  agent equals the chain if and only if there is no stale put of it that nothing later heals
  (`InterleavedConvergenceIff`). Even runs in which nothing fails may have one (`ConcurrentRepairIsLost`); ordinary
  concurrent writes have stale puts that heal (`StalePutIsHealed`). The clobbering write is the undisturbed case of
  the stale put (`StaleIsClobbering`).
- `core/backend/local.go:180-187` puts and logs a registration without the mutex, so a write of the new agent can be
  logged first, and the log as it was appended then does not replay (`LateRegisterEntry`, `AppendedLogReplaysIff`).
  Sorted by time, as `GetChangeLogs` returns it, it always does (`EveryInterleavingIsAudited`).
- A registration is mirrored with a stamp taken before the chain's (`core/backend/onchain.go:107`), so a fresh mirror
  record is older than the chain's though equal in content; the next pass rewrites it.
- `core/backend/memory_persistence.go:48-51` never removes an index entry, so an upsert under another owner leaves the
  old owner listing the agent. The index is exact if and only if no put moves an agent (`PutKeepsIndexIff`), which is
  so in every run of the local backend (`EveryRunIsAudited`), of the hybrid backend (`Convergence.ExecuteAll`) and in
  every interleaving of its calls (`IndexIsAScan`).
- `core/backend/hybrid.go:233` drops the error of the local batch read. A store that fails with a nil map makes the
  call panic at line 248, exactly when the chain finds one of the listed agents (`HybridBackend.BatchGetAgentInfo`).
- `internal/domain/outbox.go:77` relies on keys being unique. For arbitrary UUIDs two different events share a key
  exactly when one UUID swallows the other and a kind (`KeysCollideIff`); valid UUIDs hold no colon and never do.
- `internal/domain/register.go:46-69` keeps the sign bit of the clock, so texts sort by time exactly within the
  instants before 1970 and within those after (`GeneratedSortByTime`).
- `internal/domain/upgrade.go:123` names an upgrade by the caller's wall clock without its offset. Instants that
  increase do not make keys distinct: an hour that the clock repeats gives equal keys (`SetBackClockCollides`). Keys
  are distinct if and only if wall-clock milliseconds are (`RunOfUpgradesHasDistinctKeys`).
- `internal/domain/upgrade.go:105-119` checks the invariants after changing the agent. An expired temporary bit among
  the new permissions makes the call fail with the agent already raised (`ExpiredBitLeavesAgentRaised`);
  `UpgradeHalfDoneIff` says exactly when.

## Model

| member | source | states |
|---|---|---|
| StateMachine.StatusTableAgrees | internal/domain/agent_status.go:57-98 | the business table and the state table decide every pair of statuses alike through the renaming, and the edges are those of a closed formula |
| StateMachine.TransitionMeaning | internal/domain/state.go:36-59 | the edges: from any live state to a different one, never back to registered |
| StateMachine.PathEnds | internal/domain/state.go:25-51 | on paths of any length unregistered is a sink and registered only a start |
| StateMachine.AllowedTransitions | internal/domain/agent_status.go:118-128 | lists exactly the statuses that CanTransitionTo accepts, each once |
| MemoryPersistence.PutKeepsIndexIff | core/backend/memory_persistence.go:39-53 | an upsert keeps the owner index exact if and only if it does not move the agent to another owner |
| MemoryPersistence.OwnerChangeBreaksIndex | core/backend/memory_persistence.go:48-51 | a concrete upsert after which the old owner still lists the agent |
| MemoryPersistence.MemoryPersistence.PutAgent | core/backend/memory_persistence.go:39-53 | stores a fresh copy under its UUID, indexes it, touches nothing else; nil and empty UUIDs are refused |
| MemoryPersistence.MemoryPersistence.GetAgent | core/backend/memory_persistence.go:56-65 | a fresh copy of what was last put, or not found |
| MemoryPersistence.MemoryPersistence.ListAgentsByOwner | core/backend/memory_persistence.go:68-84 | fresh copies of exactly the indexed agents, strictly ascending by UUID; of exactly the owner's agents when the index agrees with a scan |
| MemoryPersistence.MemoryPersistence.ListLogs | core/backend/memory_persistence.go:99-110 | the newest entries up to the limit, in append order; all for limit 0 |
| MemoryPersistence.MemoryPersistence.BatchGet | core/backend/memory_persistence.go:113-124 | fresh copies of exactly the listed agents that are stored |
| MemoryPersistence.CallerWritesAreInvisible | core/backend/memory_persistence.go:45-64 | changing a record after putting it, or one that was returned, does not change later reads |
| LocalBackend.LocalBackend.RegisterAgent | core/backend/local.go:149-204 | succeeds exactly on complete requests; then the record with the request's owner, level, permission and key is stored and indexed under that owner, one register entry by the owner is logged, nothing else changes and the credential repeats the record; a refusal changes nothing |
| LocalBackend.LocalBackend.UpdateAgentLevel | core/backend/local.go:239-270 | the state and level rules, the new record and the log entry, as the specification function says |
| LocalBackend.LocalBackend.BanAgent | core/backend/local.go:277-303 | idempotent on banned agents, refused on unregistered ones, otherwise one logged change |
| LocalBackend.LocalBackend.UnbanAgent | core/backend/local.go:306-328 | no-op unless banned, otherwise one logged change to active |
| LocalBackend.LocalBackend.UnregisterAgent | core/backend/local.go:335-358 | no-op when already unregistered, otherwise one logged change |
| LocalBackend.VerdictMeans | core/backend/local.go:239-358 | which writes apply, which are refused and which are no-ops, the rewritten record and the entry with its values and reason, field by field |
| LocalBackend.LocalWriteMeans | core/backend/local.go:239-358 | what a write does to store, index and every log and which error it gives, in those terms |
| LocalBackend.LocalBackend.GetChangeLogs | core/backend/local.go:367-379 | a newest-first permutation of the appended entries; the exact reversal when stamps increase |
| LocalBackend.NewestFirstIsReversal | core/backend/local.go:375-377 | any newest-first permutation of a log with strictly increasing stamps is its reversal, so the unstable sort does not matter |
| AuditTrail.ReplayPrefixes | core/backend/local.go:184-352 | a log that replays has every prefix replay: every entry's old value was the value before it |
| AuditTrail.EntryReplays | core/backend/local.go:239-358 | the entry of an applied write takes the replay from the old record to the new one |
| AuditTrail.PutAndLogKeepsAudit | core/backend/local.go:259-267 | put and append keep the audit invariant of all agents when the longer log tells the new record's story |
| AuditTrail.CallKeepsAudit | core/backend/local.go:149-358 | every call keeps: logs replay to the store, stamps increase, the owner index is exact |
| AuditTrail.EveryRunIsAudited | core/backend/local.go:149-358 | in every reachable store each agent has a registration call of the run whose owner, permission, key and time it carries and from whose level its log replays to its present state and level; the owner index is a scan |
| AuditTrail.LogIsItsCalls | core/backend/local.go:149-358 | the log of an agent is, entry by entry with actor, values and reason, what the calls of the run logged for it, in their order |
| AuditTrail.QuietOrLogged | core/backend/local.go:239-358 | a call changes nothing, or one agent legally under exactly one new entry; a failed call changes nothing |
| AuditTrail.LifeOfAnAgent | core/backend/local.go:239-358 | over any run identity is kept, levels and logs only grow, and an unregistered agent never changes again |
| InterleavedAudit.MoveKeepsInv | core/backend/local.go:149-358 | every single access of interleaved calls keeps stories, logs, index and mutex consistent |
| InterleavedAudit.EveryInterleavingTellsStories | core/backend/local.go:149-358 | in every interleaving, at every moment, each agent carries the owner, permission, key and time of a registration of the schedule; its story replays to its present state and level; each entry of its log is of a call of the schedule, with that call's actor, reason and new value; the owner index is a scan |
| InterleavedAudit.EveryInterleavingIsAudited | core/backend/local.go:149-379 | when no call is in progress the log sorted newest first is that story backwards, whatever the order of the appends |
| InterleavedAudit.AppendedLogReplaysIff | core/backend/local.go:180-187 | in the order of appending it replays if and only if the registration was logged first |
| InterleavedAudit.LateRegisterEntry | core/backend/local.go:180-300 | a schedule in which a ban is logged before the registration |
| SerialLocal.CallAlone | core/backend/local.go:149-358 | a call that nobody interrupts does in the interleaved model what the whole call does, and nothing when its put fails |
| SerialLocal.RunIsInterleaving | core/backend/local.go:149-358 | every serialized run is one of the interleavings |
| Onchain.TransactLaws | core/chain_adapter/mock/mock.go:134-292 | identity is immutable, revoked is terminal, every change restamps |
| Onchain.TransactMeans | core/chain_adapter/mock/mock.go:134-292 | the adapter refuses exactly to raise or ban a revoked agent; the level, state and stamp that every other transaction leaves |
| Onchain.ChainWriteMeans | core/backend/onchain.go:178-236 | a write is accepted exactly for a confirmed agent, a level other than zero and no raise or ban of a revoked agent, and changes that agent alone |
| Onchain.LevelDropsIff | core/chain_adapter/mock/mock.go:145-156 | the adapter lowers a level exactly on an accepted update below the present level |
| Onchain.OnchainBackend.RegisterAgent | core/backend/onchain.go:91-135 | succeeds exactly when the node answers, the request is complete and the UUID is new and not empty; then the agent is confirmed with the request's fields and the credential is active and stamped before confirmation; otherwise nothing changes and the error says which |
| Onchain.OnchainBackend.Write | core/backend/onchain.go:178-236 | the four transactions: when they succeed, the level, state and stamp that they leave of the agent, no other agent changed, and which error otherwise |
| Onchain.OnchainBackend.GetAgentInfo | core/backend/onchain.go:142-171 | the mapped view of the confirmed agent, not found, or an error; the ledger is untouched |
| OnchainBatch.ActKeepsInv | core/backend/onchain.go:276-297 | every atomic action keeps the counts of wait group and semaphore and the contents of the channel |
| OnchainBatch.SendNeverBlocksOrPanics | core/backend/onchain.go:276-290 | a goroutine about to send finds room and an open channel |
| OnchainBatch.NeverStuck | core/backend/onchain.go:278-298 | until the call returns, somebody can move |
| OnchainBatch.EveryActionCounts | core/backend/onchain.go:279-297 | every action lowers the measure by exactly one |
| OnchainBatch.ReturnedIsPointwise | core/backend/onchain.go:276-298 | what is gathered from a quiet chain, any reads failing, is the successes of the pointwise reads that were answered, duplicates included |
| OnchainBatch.EveryInterleaving | core/backend/onchain.go:266-299 | all interleavings, whatever each read returns: at most eight in flight, no blocked or late send, exactly 8n + 4 actions, and a map that holds one of the returned records for each agent that some read returned, and no others |
| OnchainBatch.InFlightExactly | core/backend/onchain.go:276-288 | the numbers of reads that can be in flight at once are exactly those up to the batch's size and eight |
| OnchainBatch.QuietChainReturnsPointwise | core/backend/onchain.go:266-299 | on a quiet chain, with any reads failing, every interleaving returns the same map |
| Hybrid.BatchEqualsFold | core/backend/hybrid.go:192-256 | the batch read returns and stores what single reads in turn would under the same chain outages and failing puts, duplicates and unknown ids included |
| Hybrid.BatchSplits | core/backend/hybrid.go:232-253 | asking the chain only for the local misses loses nothing against asking for the whole list |
| Hybrid.PutAllKeepsIndexIff | core/backend/memory_persistence.go:39-53 | any number of puts keeps the owner index exact if and only if none moves an agent to another owner |
| Hybrid.FoldIsSynced | core/backend/hybrid.go:363-375 | visiting the listed agents one by one in any order is one simultaneous repair of the lagging records |
| Hybrid.SyncOverwritesExactly | core/backend/hybrid.go:351-377 | a pass overwrites exactly the missing or strictly older records, removes none, never moves a stamp back |
| Hybrid.SyncIdempotent | core/backend/hybrid.go:351-377 | a second pass on a quiet chain changes nothing |
| Hybrid.HybridBackend.RegisterAgent | core/backend/hybrid.go:140-148 | succeeds exactly when the chain answers, the request is complete and the UUID is new; then the chain has the agent and, if the store works, its record is stored and indexed and one register entry with owner, state, hash and stamp is appended to its log and to no other; otherwise nothing changes |
| Hybrid.HybridBackend.Write | core/backend/hybrid.go:151-185 | chain failure changes nothing; accepted exactly when the chain accepts, with the chain agent that results; then, if the store works, the local write with its record, index and log entry, its result ignored |
| Hybrid.HybridBackend.GetAgentInfo | core/backend/hybrid.go:192-219 | local hit, else chain copy and indexed backfill, else the chain's error; under every combination of faults |
| Hybrid.HybridBackend.BatchGetAgentInfo | core/backend/hybrid.go:227-256 | result, store and owner index of the batch read under chain outages and failing puts; after a failing local read a panic exactly when the chain finds an agent |
| Hybrid.MissingFrom | core/backend/hybrid.go:236-241 | exactly the misses, and the computed capacity is never negative |
| Hybrid.HybridBackend.RunOnce | core/backend/hybrid.go:351-377 | the pass puts and indexes exactly the lagging agents whose fetch and put go through; chain and log stay |
| Convergence.OneWrite | core/backend/hybrid.go:151-185 | one accepted write with its local half leaves the agent settled if and only if it does not clobber the record |
| Convergence.OneWriteIff | core/backend/hybrid.go:151-185 | whatever the record was, the agent is settled afterwards if and only if the write does not clobber it and changes the chain, writes locally, or found it settled |
| Convergence.SettledIff | core/backend/hybrid.go:140-377 | after any call, whatever failed, an agent is settled if and only if the call does not clobber it, and heals it or found it settled |
| Convergence.ClobbersExactly | core/backend/hybrid.go:140-219 | any call on a settled system leaves it settled if and only if it is not a clobbering write |
| Convergence.FreshIsNeverClobbered | core/backend/hybrid.go:151-185 | a write to a record that agrees with the chain never clobbers it |
| Convergence.FreshWritesNeverClobber | core/backend/hybrid.go:151-185 | a run whose writes all hit fresh records contains no clobbering write |
| Convergence.RunStaysSettled | core/backend/hybrid.go:140-377 | runs without clobbering writes keep every agent missing, older or equal |
| Convergence.FirstClobberUnsettles | core/backend/hybrid.go:151-185 | the first clobbering write of a run is the moment it stops being settled |
| Convergence.PassRepairsExactlyTheSettled | core/backend/hybrid.go:351-377 | after a clean pass an agent equals the chain if and only if it was settled; an unsettled record survives every pass |
| Convergence.MirrorConvergesIff | core/backend/hybrid.go:140-377 | after any run from an empty system and one clean pass the mirror has exactly the chain's agents, and one equals the chain if and only if no write clobbers it that no later call heals |
| Convergence.MirrorConverges | core/backend/hybrid.go:140-377 | in particular runs without clobbering writes converge |
| Convergence.MissedBanThenUpgradeIsNeverRepaired | core/backend/hybrid.go:165-366 | a run with one missed local ban whose mirror no pass ever repairs |
| Convergence.Execute | core/backend/hybrid.go:140-377 | one event on the backend object, with any faults, is one step of the run model, keeps the owner index a scan, and logs exactly the entries of that event |
| Convergence.ExecuteAll | core/backend/hybrid.go:140-377 | the same for whole runs: every log gains, in the order of the calls, the register entry of each mirrored registration and one entry per applied local write |
| Convergence.HybridLogShape | core/backend/hybrid.go:140-296 | what a run logs for an agent has strictly increasing stamps, names the agent, and has a register entry at most at its beginning, and none if the chain knew the agent before |
| Convergence.ConvergeOnObject | core/backend/hybrid.go:140-377 | the same equivalence on the backend object, for any calls and then one clean pass; its owner index is exact |
| Convergence.WriteIsCall | core/backend/hybrid.go:151-185 | the steps of the run model are the writes of the object |
| Convergence.RegisterIsCall | core/backend/hybrid.go:268-296 | the registration step is the mirroring of the object |
| Interleaving.MoveKeepsSafe | core/backend/hybrid.go:140-377 | every single access of every call keeps store and held copies within what the chain has confirmed |
| Interleaving.MirrorInventsNothing | core/backend/hybrid.go:140-377 | in every interleaving with any failures: mirrored agents are on the chain with the same identity, at a level and in a state that the chain showed at some moment of the schedule, and unregistered ones are revoked |
| Interleaving.HistoryIsWhatWasShown | core/backend/hybrid.go:140-377 | the recorded history of an agent holds a level or state if and only if the chain showed it at some moment |
| Interleaving.IndexIsAScan | core/backend/memory_persistence.go:46-51 | in every interleaving the owner index lists exactly the mirrored agents of an owner, the chain's owner |
| Interleaving.BoundedIffNoUndercut | core/backend/hybrid.go:151-377 | an access keeps store, held copies and pending upgrades within the chain's levels if and only if it is not an accepted update below one of them |
| Interleaving.MirrorNeverAhead | core/backend/hybrid.go:151-158 | in every interleaving without an undercutting update the mirror's level is at most the chain's |
| Interleaving.AheadIff | core/backend/hybrid.go:140-377 | after any access the mirror is ahead on an agent if and only if the access puts it ahead, or found it so and does not set the level |
| Interleaving.MirrorAheadIff | core/backend/hybrid.go:140-377 | in every interleaving the mirror ends ahead if and only if some access put it ahead and nothing later set the level |
| Interleaving.NoDowngradeNoUndercut | core/chain_adapter/mock/mock.go:145-156 | runs without downgrades undercut nothing |
| Interleaving.DowngradePutsMirrorAhead | core/chain_adapter/mock/mock.go:153-156 | a concrete schedule with a downgrade after which the mirror is ahead |
| Interleaving.HarmlessDowngrade | core/backend/hybrid.go:140-148 | the same schedule with a failed mirroring: the downgrade undercuts nothing |
| Settling.AgentSettlesIff | core/backend/hybrid.go:140-377 | after any access, from any mirror, an agent is missing, older or equal if and only if the access is no stale put of it, and heals it or found it so |
| Settling.MoveSettlesIff | core/backend/hybrid.go:140-377 | from a settled mirror any access, failing or not, keeps every agent so if and only if it is not a stale put |
| Settling.MoveKeepsCopiesFresh | core/backend/hybrid.go:192-377 | copies on their way into the store stay equal to the chain's present view or strictly older |
| Settling.StaleIsClobbering | core/backend/hybrid.go:151-185 | undisturbed, a stale put is a clobbering write |
| Settling.UndisturbedIsNotStale | core/backend/hybrid.go:151-185 | an undisturbed write to a copy that agrees with the chain is never put stale |
| Settling.CleanPassEqualises | core/backend/hybrid.go:351-377 | after a clean pass the mirror holds the chain's agents, and one equals the chain if and only if it was settled |
| Settling.InterleavedConvergenceIff | core/backend/hybrid.go:140-377 | calls and passes in any interleaving with any failures, then one clean pass: exactly the chain's agents, and one equals the chain if and only if no stale put of it stays unhealed |
| Settling.InterleavedConvergence | core/backend/hybrid.go:140-377 | in particular runs without stale puts converge |
| Settling.StalePutIsHealed | core/backend/hybrid.go:151-185 | two concurrent writes whose local halves keep the chain's order: the first put is stale, the second heals it |
| Settling.ConcurrentRepairIsLost | core/backend/hybrid.go:363-375 | a schedule without failures in which a pass between a local read and its write is undone for ever |
| SerialHybrid.RegisterAlone | core/backend/hybrid.go:140-148 | an uninterrupted registration of the interleaved model, with any faults, does to chain and store what the whole call does |
| SerialHybrid.WriteAlone | core/backend/hybrid.go:151-185 | the same of a write whose local read or put may fail |
| SerialHybrid.ReadAlone | core/backend/hybrid.go:192-219 | the same of a read |
| SerialHybrid.BatchAlone | core/backend/hybrid.go:227-256 | the same of a batch read |
| SerialHybrid.PassAlone | core/backend/hybrid.go:351-377 | an uninterrupted pass, with local reads, fetches and puts failing, writes exactly the agents that lag or cannot be read and whose fetch and put go through |
| SerialHybrid.RunIsInterleaving | core/backend/hybrid.go:140-377 | every serialized run, whatever fails in it, is one of the interleavings |
| BatchRegister.ActKeepsInv | internal/service/batch_register.go:96-122 | every atomic action keeps the counts of wait group, channel and mutex, the contents of the lists, and every load current |
| BatchRegister.WorkerActKeepsLoads | internal/service/batch_register.go:108-120 | a list that was loaded for an append is still the present one when the extended list is stored, because of the mutex |
| BatchRegister.ConcurrencyBounded | internal/service/batch_register.go:97-105 | never more requests in flight than the channel holds |
| BatchRegister.NeverStuck | internal/service/batch_register.go:100-123 | until the spawner returns, somebody can move |
| BatchRegister.EveryActionCounts | internal/service/batch_register.go:100-123 | every action lowers the measure by exactly one |
| BatchRegister.ReturnedIsComplete | internal/service/batch_register.go:108-125 | at the end each index is in exactly one list, once, with what its call returned |
| BatchRegister.EveryInterleaving | internal/service/batch_register.go:86-126 | all interleavings: bounded concurrency, no deadlock, exactly 10n + 2 actions, a complete result |
| BatchRegister.InFlightExactly | internal/service/batch_register.go:71-105 | the numbers of calls that can be in flight at once are exactly those up to the batch's size and the configured concurrency, eight when it is zero |
| BatchRegister.HandleBatchRegister | internal/service/batch_register.go:60-126 | empty batches and those above the limit, one hundred when it is zero, are refused, a negative concurrency panics; otherwise, whatever the scheduler does, the two lists partition the indices, each with what its call returned |
| Permissions.MaxPermissionsTable | internal/domain/agent.go:126-131 | the shift does not wrap for valid levels; all ones from level 3 up; zero for invalid levels |
| Permissions.MaxPermissionsBits | internal/domain/agent.go:124-131 | a level allows exactly the bits below sixteen times its successor |
| Permissions.BitDoubles | internal/domain/agent.go:273-299 | the mask of index k is two to the k, and zero from 64 on |
| Permissions.WithinMonotone | internal/domain/agent.go:126-131 | a higher valid level allows whatever a lower one does |
| Permissions.BitsInjective | internal/domain/agent.go:293-299 | the set of indices determines the mask |
| Permissions.WithinIffBits | internal/domain/invariants.go:141-152 | the mask test is inclusion of the sets of indices |
| DomainRuns.GrantAddsOneIndex | internal/domain/agent.go:273-282 | succeeds exactly for an allowed index and adds that index only |
| DomainRuns.RevokeRemovesOneIndex | internal/domain/agent.go:285-291 | fails exactly above 63, otherwise removes that index only |
| DomainRuns.NewAgentIs | internal/domain/agent.go:194-217 | which error the first bad argument gives, and otherwise the registered agent, field by field |
| DomainAgent.Agent.HasPermission | internal/domain/agent.go:294-299 | membership in the set of indices |
| DomainAgent.Agent.Ban | internal/domain/agent.go:230-242 | refusals leave the agent; otherwise state, reason and time change together |
| DomainAgent.Agent.Unban | internal/domain/agent.go:245-254 | only from banned, clearing reason and time |
| DomainAgent.CheckTemp | internal/domain/invariants.go:116-132 | a violation exactly when some expired temporary bit is still set, in any iteration order |
| DomainAgent.CheckInvariantsWith | internal/domain/invariants.go:195-202 | the first violation of the list, none exactly when all hold |
| DomainAgent.CheckInvariantsAll | internal/domain/invariants.go:207-215 | exactly the violated invariants of the list, in its order; its first is the one that the short-circuiting check reports |
| DomainRuns.InvariantsMean | internal/domain/invariants.go:61-185 | what the five default invariants together say, on sets of indices and instants |
| DomainAgent.UpgradeAgentObject | internal/domain/upgrade.go:67-141 | the object's new value and the result are those of the upgrade rule, nil agents included |
| DomainRuns.UpgradeSucceedsIff | internal/domain/upgrade.go:67-141 | an upgrade succeeds if and only if operator and time are given, the agent is registered or active and not its own operator, the level goes up by one to at most 7, old and new indices are allowed there, none of them has expired, the expiry does not precede the registration, and the UUID is not blank |
| DomainRuns.UpgradeErrors | internal/domain/upgrade.go:67-103 | which error the first failed check gives; the agent is left as it was |
| DomainRuns.UpgradeHalfDoneIff | internal/domain/upgrade.go:105-135 | an upgrade fails and yet changes the agent exactly when the checks pass and an expired bit is set after merging, the expiry precedes the registration, or the UUID is blank |
| DomainRuns.ExpiredBitLeavesAgentRaised | internal/domain/upgrade.go:109-119 | a valid agent and an input for which that happens |
| DomainRuns.UpgradeIsAtomic | internal/domain/upgrade.go:67-141 | for valid agents and no expired new bit: unchanged on failure; on success one level up, permissions merged, all invariants kept, a true event |
| DomainRuns.ApplyKeepsSound | internal/domain/agent.go:220-291 | every operation keeps permissions within the level and ban fields consistent and moves the state along the table or not at all |
| DomainRuns.EveryRunFromNewAgent | internal/domain/agent.go:194-291 | in every run from construction: permissions within the level, banned exactly with time and reason, at most 7 minus the initial level upgrades succeed |
| DomainRuns.RunKeepsUuid | internal/domain/agent.go:194-291 | no operation changes who the agent is |
| UuidText.DefaultUuid | internal/domain/register.go:45-70 | the shifted bytes, random bytes and cuts give the text that the lemmas below are about |
| UuidText.UuidShape | internal/domain/agent.go:38-58 | a text that matches the pattern has 32 to 36 hex digits and hyphens, hence no colon |
| UuidText.MatchesUuidIff | internal/domain/agent.go:37-58 | the accepted texts are exactly 8, 4, 4, 4 and 12 hex digits of either case, each two neighbouring groups with or without a hyphen |
| UuidText.GeneratedIsValid | internal/domain/register.go:45-70 | every generated text matches the pattern and has 36 characters |
| UuidText.GeneratedLayout | internal/domain/register.go:45-70 | the hyphens' places, and at the others the lower-case hex digits of the eight big-endian bytes of the time and of the random bytes, in order |
| UuidText.GeneratedSortByTime | internal/domain/register.go:46-69 | for any int64 milliseconds, earlier texts are smaller whatever the random bytes exactly when both instants have the same sign |
| UuidText.GeneratedEqualIff | internal/domain/register.go:45-70 | two generated texts are equal exactly for the same millisecond and the same eight random bytes |
| GoTime.FormatInjective | internal/domain/upgrade.go:123 | the event-name layout is equal exactly for times that show the same wall-clock millisecond, at any offsets and in every year, before year 1 as well |
| GoTime.FormatReadsBack | internal/domain/upgrade.go:123 | the text reads back: year, month, day, T, hours, minutes, seconds, dot, milliseconds of the wall clock |
| GoTime.CalendarIs | internal/domain/upgrade.go:123 | the calendar in closed form: every day's year, month and day count back to the day, with the leap-year rule |
| GoTime.FormatSortsByWallClock | internal/domain/upgrade.go:123 | within four-digit years texts sort exactly by wall clock |
| Outbox.KeysCollideIff | internal/domain/outbox.go:61-147 | for any two UUIDs, two different events with nonempty ids share a key if and only if one UUID is the other followed by a kind, up to a colon |
| Outbox.KeysDecode | internal/domain/outbox.go:61-147 | for colon-free UUIDs keys are equal exactly for the same agent, kind and event id |
| Outbox.EnvelopesDecode | internal/domain/outbox.go:45-147 | the same for the envelopes of any two events of valid agents |
| Outbox.EnvelopeIs | internal/domain/outbox.go:45-147 | aggregate, event type, payload and key of the envelope of each kind of event, literally |
| Outbox.ColonsCollide | internal/domain/outbox.go:77-125 | without that condition two different keys collide |
| Outbox.RegistrationSucceedsIff | internal/domain/register.go:106-158 | with the default generator a registration succeeds exactly on complete input, with the agent and the event that carry its owner, level, key, operator and time, field by field |
| Outbox.RegistrationErrors | internal/domain/register.go:106-158 | which error the first missing or bad input gives |
| Outbox.RegisterKeysEqualIff | internal/domain/register.go:45-158 | two registrations make equal keys exactly when they were given the same millisecond and random bytes |
| Outbox.RegisterKeyFits | ent/schema/outbox_event.go:73-77 | registration keys are nonempty and at most 84 characters |
| Outbox.UpgradeKeyFits | ent/schema/outbox_event.go:73-77 | upgrade keys are nonempty and fit the column exactly when the year's text has at most 94 - 2 times the UUID's length characters |
| Outbox.UpgradeKeysEqualIff | internal/domain/upgrade.go:122-124 | two upgrade keys are equal exactly for the same agent and wall-clock millisecond |
| Outbox.UpgradesOfARunCollideIff | internal/domain/upgrade.go:122-124 | any two upgrades that succeed in one run of an agent have equal keys exactly when they show the same wall-clock millisecond |
| Outbox.RunOfUpgradesHasDistinctKeys | internal/domain/upgrade.go:122-124 | the successful upgrades of a run have distinct keys if and only if they show distinct wall-clock milliseconds |
| Outbox.OneOffsetHasDistinctKeys | internal/domain/upgrade.go:122-124 | in particular when all are at one offset and their instants are milliseconds apart |
| Outbox.SetBackClockCollides | internal/domain/upgrade.go:122-124 | a run of two successful upgrades an hour apart, across a clock set back, with equal keys |
| Classifier.IndexOf | internal/prompt/classifier.go:160-171 | the least position of an occurrence, or -1 exactly when there is none |
| Classifier.Contains | internal/prompt/classifier.go:153-158 | true exactly when the needle occurs |
| Classifier.LowerText | internal/prompt/classifier.go:141-151 | exactly the ASCII capitals change, to their lower-case letters |
| Classifier.Confidence | internal/prompt/classifier.go:115-139 | computes the verdict that the lemmas below are about |
| Classifier.VerdictMeans | internal/prompt/classifier.go:115-139 | for any rules: the earliest rule with the maximal capped score, or unknown with 0 when none reaches 0.1 |
| Classifier.VerdictIgnoresCase | internal/prompt/classifier.go:116-151 | texts that differ in ASCII case get the same verdict |
| Classifier.UnknownIffNoKeyword | internal/prompt/classifier.go:57-139 | default rules: unknown exactly when no keyword occurs; otherwise the winner has a keyword that does |
| Classifier.BatchAlwaysWins | internal/prompt/classifier.go:59-67 | a batch keyword anywhere gives batch with score 1 |
| Classifier.FullWeightWinsIff | internal/prompt/classifier.go:57-139 | a full-weight rule wins with score 1 exactly when it is hit and no earlier rule scores 1 |
| Classifier.VerdictIsDecision | internal/prompt/classifier.go:57-139 | the default rules, keyword by keyword in UTF-8, are a decision list: batch, configuration, two audit keywords, registration, upgrade, two query keywords, one audit keyword with 0.9, one query keyword with 0.8, else unknown |
| MigrationGate.OneMoreEntry | internal/gates/migration.go:80-105 | one more parsed file keeps the pair map in step with the entries |
| MigrationGate.CollectPairs | internal/gates/migration.go:78-105 | one pair per version with what occurred, or a refusal exactly when names differ within a version |
| MigrationGate.ConsecutiveIsInterval | internal/gates/migration.go:118-122 | a list whose neighbours differ by one is the whole interval between its ends |
| MigrationGate.CheckDir | internal/gates/migration.go:66-135 | accepts exactly the acceptable listings; each refusal states the fault that it names |
| MigrationGate.OrderIrrelevant | internal/gates/migration.go:80-105 | acceptance depends on the set of entries only |

## Left out

- Ban, unban, revoke and upgrade service workflows (`internal/service`): their storage is not part of this model; of the service layer only the batch pool is.
- Lost log entries: in the runs of both backends an append that fails alone is not modelled; a put may fail in every interleaved run.
- A serialized pass lists, compares and fetches from one state of store and chain; reads that fail in the middle are part of the interleaved model.
- Clock regressions: serialized convergence and the audit log assume one strictly increasing clock; interleaved convergence assumes only that the chain stamps a transaction later than anything was stamped before it; the interleaved safety results assume nothing about stamps.
- `LocalBackend.mu` in the interleaved model of the hybrid backend: it only removes interleavings, so the results hold with it; the schedule of `ConcurrentRepairIsLost` respects it.
- The pass that ends `InterleavedConvergenceIff` runs alone; the passes inside the run are interleaved like every other call.
- HandleBatchRegister: a request whose registration panics is not modelled.
- OnchainBackend.Write: the four transactions are one method with the transaction as an argument, because they differ in nothing else.
- Error texts: errors are values without their formatted messages; cancelled contexts are chain or store failures.
- Caches: cached values are never read back, so the cache calls have no effect on results.
- UuidText.GeneratedIsValid: the version and variant bits of section 5.7 of RFC 9562 are not promised, because the generator sets no such bits.
- MigrationGate.CheckDir: the directory listing and the file-name pattern are taken as given, as triples of version, name and direction.
- Agent: transaction hash and signature are carried but never used by the modelled code.
- Classifier.Confidence: scores are exact reals; with the default weights the sums are compared only with 0, 0.1 and 1.
- The HTTP chain adapter, command line, gateway, MCP server, configuration, prompt slots and the other gates: plumbing and simple members.
