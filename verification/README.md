# AOK runtime: a Dafny model and its proofs

AOK runs agent applications. A user-space supervisor keeps their mailboxes,
timers, bindings, budgets, taint and audit log in one durable state; a content
store keeps their contexts; kernel queues wake them; a runner claims messages,
calls a provider and settles the turn across both stores. Beside it stand the
session engine with its bounded event history, capability tokens with
attenuation and revocation, and a native launcher that installs a seccomp
filter. This project models that core and proves what it promises over whole
runs: whatever order the steps come in, and whichever writes, acknowledgements,
processes or boots fail.

## How the model is built

| files | what they hold |
|---|---|
| `Text`, `Sums`, `Wrappers` | decimal numbers and the `timer:`, `lsfs:` and `kernel:` keys built from them, capped sums, results |
| `Mailbox`, `Audit`, `Confirmations`, `State`, `Operations`, `Wake` | the supervisor's durable state, every operation on it as a function of states, and what each operation keeps |
| `System`, `Safety`, `Turns`, `TurnRuns`, `KernelRuns`, `Runs`, `Guarantees`, `Shutdown` | the whole system as a step machine (live state, committed state, context store, kernel queues and cursors, turns in flight), its invariant, and the theorems about every run |
| `Supervisor`, `KernelRoom`, `KernelDrain`, `TurnFinish`, `Scheduler` | the operations in the source's own form: objects updated in place and loops, each proved to compute its function on states |
| `ContextStore`, `ContextDatabase` | the context transactions, their refinement to plain byte strings, and the same transactions as updates of tables |
| `Engine`, `Ledger` | the session engine as an object with its history, replay cache and transport, and the usage ledger |
| `Policy`, `Revocation`, `Paths` | grants, attenuation chains, policy rules and the revocation registry |
| `Bpf`, `Launcher` | an interpreter for the filter program with the program as data, and the command line written by one side and read by the other |

A step of `System` is one operation up to one durable write, one kernel call or
one provider call. A write either commits the live state or restores the
committed one; a process may stop between any two steps; a restart recovers
from the committed state; a reboot also empties the kernel queues. Steps of
different operations may interleave more freely than the source's mutex allows,
so every run of the modelled operations is a run of the model.

The step machine also carries a history (`Past`): the boots seen, the events
ever posted, acknowledged or kept, the applications retired, the turns a
provider was called for, and the requests escalated, approved and released. It
lets a theorem say "every event that was ever acknowledged". A step consults it
only where freshness is assumed of the outside: a boot id or a request id never
repeats.

What the source takes from outside becomes a parameter: the clock reading of an
operation, fresh identifiers, whether a write or an acknowledgement succeeds,
what a provider answers, and the order in which keys are sorted. JSON encoding,
SHA-256, signature checking, payload taint and prompt prefixes are functions
held in a record (`Env`, `Codec`); where a theorem needs a hash without
collisions or a decoder that inverts its encoder it says so in `requires`.

## Main results

* **Kernel events.** Over every run, an event is acknowledged only after its
  message is committed, no event a commit ever kept is lost before its
  application is retired, and an event never becomes two messages
  (`Guarantees.DrainLosesNothing`, `OneMessage`, `OrderlyShutdownLosesNothing`).
* **Turns.** Settlement is exactly once across two stores that cannot commit
  together (`SettlementIsExactlyOnce`, `NoCallOncePrepared`,
  `ContextHoldsOnlyPrepared`).
* **Contexts.** The page, blob, grant and operation tables refine a map from
  contexts to bytes, and append, fork, checkpoint and restore obey their laws
  over every run of operations (`ContextStore.ApplyRefines`, `RunAppends`,
  `ForkDiverges`, `RestoreRecalls`, `KeysAreFinal`, `PagingIsComplete`).
* **Mailboxes, timers, bindings, taint, audit, confirmations.** One invariant,
  kept by every step, from which each promise is drawn for every reachable
  state (`Runs.StepKeeps`, `Guarantees.*`).
* **Sessions.** What the transport accepted, what history holds, what was
  charged and which prompts ran, over every interleaving
  (`EngineProtocol.Interleave`, `SessionGuarantees`, `SettledLogIsTurns`).
* **Scheduling.** Charges stay level and no application waits more than a
  computed number of turns (`Scheduler.ChargesStayLevel`, `WaitIsBounded`,
  `EveryoneIsClaimed`).
* **Tokens, filter, launcher.** It is decided exactly which tokens have chains
  that only narrow; the threaded filter program computes its stated verdicts for
  every deny list and call; and the command line carries the policy across (`Policy.ChainsNarrowExactly`,
  `Bpf.FilterMatchesPolicy`, `Launcher.RoundTrip`).

## Where the code does less than it says

Each of these is proved with the exact condition under which the promise holds.

* Without the network flag the filter compares the socket family with the
  placeholder 0xFFFFFFFF, so a call with that family is allowed; every other
  family is refused (`Bpf.SocketsClosedWithoutNetwork`).
* Containment of grants is transitive below a grant exactly if the grant's base
  does not itself end in a recursive suffix under a clean absolute path
  (`Policy.NarrowsExactly`). A token's chains only narrow exactly if, for every
  grant of the other kind in it, all that grant can be narrowed into lies within
  a grant of the first kind in it (`ChainsNarrowExactly`); `ReopeningExample` shows a token that is widened.
* The comment on the scheduling band says it bounds starvation. It does exactly
  while the charge plus its band stays below the largest counter value; above
  that the saturated comparison always holds and an application can be passed
  over for ever (`Scheduler.WaitIsBounded`, `SaturationStarves`). The least
  charge is taken over eligible applications, with work or without, which only
  makes the band tighter.
* The shutdown snapshot is said to persist the unacknowledged queues. It skips
  an application whose records recovery still owns: a queued event survives the
  next boot exactly if its application is not skipped or the event was on record
  before (`ShutdownReach.ShutdownReach`), and `ShutdownCanLose` is a run in
  which one is lost.
* The comment on revocation says that revoking one of two tokens with the same
  caveats leaves the other intact. It does, but everything attenuated from the
  other is revoked with it (`Revocation.SiblingScope`).

## Model

| member | source | states |
|---|---|---|
| `Guarantees.ReachableInv` | runtime/supervisor.go:311-333 | From an empty database, every run of the supervisor, context store, kernel queues and turns, with failed writes, crashes, restarts and reboots anywhere, keeps the system invariant. |
| `Guarantees.MailboxesStayBounded` | runtime/mailbox.go:37-60 | In every reachable live and committed state outstanding messages and bytes are within the application and the supervisor limits, keys are unique per application, numbers grow strictly and no number is shared between applications. |
| `Guarantees.SettlementIsExactlyOnce` | runtime/runner.go:277-408 | In every reachable state an application's charge is the saturating sum of usage over its committed results; each settled message has, of the commits of all contexts, exactly one append and exactly one checkpoint, both in its application's context, and its result names that checkpoint. |
| `Guarantees.NoCallOncePrepared` | runtime/runner.go:464-535 | While the provider runs for a message, that message is neither prepared nor settled on disk. |
| `Guarantees.ContextHoldsOnlyPrepared` | runtime/runner.go:296-346 | A result append in any context belongs to a settled or a committed prepared turn of the application owning that context, and holds that turn's message and text, so recovery repeats it instead of conflicting with it. A turn settled after retirement no longer shows its text, so there only the message is compared. |
| `Guarantees.DrainLosesNothing` | runtime/kernelwake.go:291-384 | Every acknowledged event is in the committed mailbox; every event a commit ever kept is in the committed mailbox or still kept unless its application was retired; every unacknowledged event of this boot is still queued. |
| `Guarantees.OrderlyShutdownLosesNothing` | runtime/kernelwake.go:391-450 | After an orderly shutdown, whatever follows, each event queued for an application whose queue the snapshot takes and that is never retired is in the committed mailbox or still kept; which applications those are is stated exactly by ShutdownReach.ShutdownReach. |
| `ShutdownReach.ShutdownReach` | runtime/kernelwake.go:391-450 | In every reachable state a queued event survives an orderly shutdown and the next boot exactly if the snapshot takes its application (listed, live, no record that recovery owns) or the event was on record before; the queue is gone either way. |
| `ShutdownReach.ShutdownCanLose` | runtime/kernelwake.go:413-424 | A run in which the snapshot skips a live application: after one shutdown and boot, an event posted before the kept record is recovered is, after the next shutdown and boot, in no mailbox, record or queue. |
| `Guarantees.OneMessage` | runtime/kernelwake.go:279-284 | At most one message per application, boot and event id. |
| `Guarantees.DeliveriesMatchCommits` | runtime/wake.go:140-222 | For every binding the delivered `lsfs:` cursors, in mailbox order, are exactly the artifact commits of the bound context between the binding's start and its cursor. |
| `Guarantees.TimersMoveWithTheirMessage` | runtime/runner.go:98-146 | In every step from a reachable state a live application's timer changes or disappears only if its `timer:id:due` message is in the same committed state. |
| `Guarantees.SourceKeysAreInjective` | runtime/runner.go:125 | Timer and LSFS keys determine their source and their due time or cursor, and conversely. |
| `Guarantees.ConsumedTaintIsCharged` | runtime/supervisor.go:747-777 | Every claimed or acknowledged message's declared taint is contained in its application's committed bits. |
| `Guarantees.CleanExportsAreClean` | runtime/taint.go:96-136 | An unconfirmed export is allowed only if the taint of every message the application consumed is in the export mask. |
| `Guarantees.ForkInheritsTaint` | runtime/supervisor.go:429-472 | A committed fork starts with exactly its parent's taint bits. |
| `Guarantees.CommittedStateOnlyAccumulates` | runtime/supervisor.go:311-322 | Between any two points of a run committed audit records, messages, acknowledgements, results, charges and taint bits are kept, and a prepared result is replaced only by its settlement. |
| `Guarantees.AuditAlwaysVerifies` | runtime/witness.go:90-106 | The audit chain and all recorded checkpoints verify in every reachable live and committed state, including after rollback and trimming. |
| `Guarantees.RequestsReleaseOnce` | runtime/taint.go:138-237 | Over every run a request releases at most one export, only its own escalated text, after an approval given in time and before expiry; at most 64 requests wait and at most 65 are stored. |
| `Guarantees.InitialInv` | runtime/supervisor.go:199-279 | The empty database satisfies the system invariant. |
| `Guarantees.MailBounds` | runtime/mailbox.go:37-60 | What the mailbox invariant says of one application: both limits, unique keys, ordered numbers. |
| `Guarantees.SnapGrows` | runtime/kernelwake.go:391-450 | No step forgets that an event was once committed as kept. |
| `Runs.StepKeeps` | runtime/supervisor.go:311-333 | Every step of every component keeps the invariant, takes nothing committed back and moves no live timer without its message. |
| `Runs.RunKeeps` | runtime/supervisor.go:311-333 | The same over runs of any length, between any two of their states. |
| `Runs.CommandStep` | runtime/supervisor.go:679-798 | Every mailbox, budget, timer, binding, taint and witness command keeps the invariant, whether its write succeeds or not. |
| `Runs.RetireRun` | runtime/supervisor.go:589-623 | Retirement keeps the invariant: messages expire, kept kernel records go, bindings are disabled. |
| `Runs.EscalateRun` | runtime/taint.go:138-171 | Escalation keeps the invariant, also on the path that refuses without writing. |
| `Runs.RedeemRun` | runtime/taint.go:173-204 | Using a request keeps the invariant: the release is recorded only with the commit that consumes the request. |
| `Runs.RestartRun` | runtime/supervisor.go:249-279 | Recovery at start keeps the invariant with nothing in flight. |
| `Runs.ShutdownRun` | runtime/kernelwake.go:391-450 | The shutdown snapshot keeps the invariant whether or not its write succeeds. |
| `TurnSettlement.AppendRows` | runtime/runner.go:340-342 | Appending a prepared turn leaves exactly its row, on the first attempt and on every repeat. |
| `TurnSettlement.CheckpointRows` | runtime/runner.go:343-346 | Checkpointing a prepared turn leaves exactly its row, on the first attempt and on every repeat. |
| `TurnSettlement.RowIsUnique` | runtime/context_store.go:174-211 | A context has one commit per key. |
| `TurnSettlement.RowsFrame` | runtime/runner.go:277-408 | No operation that settles nothing disturbs the correspondence between context rows and prepared or settled turns. |
| `TurnSettlement.ResultKeyInjective` | runtime/runner.go:340-343 | Result keys name one message. |
| `TurnRuns.StartStep` | runtime/runner.go:464-513 | Starting a turn keeps the invariant, and the provider is called only for a message neither prepared nor settled. |
| `TurnRuns.FinishStep` | runtime/runner.go:291-319 | Committing a prepared result, or failing to, keeps settlement exact. |
| `TurnRuns.SettleStep` | runtime/runner.go:347-408 | Settling, or failing to, keeps settlement exact. |
| `TurnRuns.RequeueStep` | runtime/runner.go:433-449 | Returning a claim disturbs no other turn in flight. |
| `TurnRuns.RestartStep` | runtime/supervisor.go:249-279 | After a restart every context row is still explained by a prepared or settled turn. |
| `TurnFinish.FinishTurn` | runtime/runner.go:277-408 | The whole of finishTurn across both stores: whatever write fails, the system invariant holds, nothing committed is lost, and a settled turn has its result on disk. |
| `TurnFinish.WriteContext` | runtime/runner.go:333-346 | The two context writes in order, stopping at the first refusal. |
| `TurnFinish.PrepareTurn` | runtime/runner.go:296-319 | The prepared result is committed before any context write. |
| `TurnFinish.CommitTurn` | runtime/runner.go:347-408 | Charge, result and acknowledgement become durable together or not at all. |
| `KernelRuns.StageStep` | runtime/kernelwake.go:326-368 | Staging an event commits its message before any acknowledgement, and always reads the head of the queue. |
| `KernelRuns.AckStep` | runtime/kernelwake.go:369-373 | An acknowledgement, lost, refused or successful, keeps every event accounted for. |
| `KernelRuns.DropStep` | runtime/kernelwake.go:374-381 | Forgetting the kept record of an acknowledged event loses nothing. |
| `KernelRuns.RecoverRecordStep` | runtime/kernelwake.go:236-261 | Moving a kept record into the mailbox loses nothing. |
| `KernelRuns.SnapAllKeeps` | runtime/kernelwake.go:391-450 | A shutdown snapshot overwrites kept records only with records of events that are still queued, and captures the queue of every application recovery does not own. |
| `KernelRuns.ProtectedIsLeft` | runtime/kernelwake.go:413-424 | An application the snapshot does not take, because recovery owns its records or its handle cannot be read, keeps its records exactly as they were. |
| `KernelRuns.ShutdownKeepsExactly` | runtime/kernelwake.go:391-450 | The same condition for survival, both directions, from the kernel invariant alone. |
| `KernelRuns.AttachStep` | runtime/kernelwake.go:179-186 | The records `attachKernel` copies are of different events, all posted in this boot. |
| `KernelRuns.ReinjectStep` | runtime/kernelwake.go:195-210 | Restoring the copy into an empty queue puts back only events posted in this boot, each once. |
| `KernelRuns.ReinjectedIsDelivered` | runtime/kernelwake.go:195-210 | Everything so restored has its message in the committed mailbox already. |
| `KernelRuns.ShutdownCaptures` | runtime/kernelwake.go:425-449 | Every queued event of a snapped application is on record after the shutdown commit. |
| `KernelRuns.RebootKernel` | runtime/kernelwake.go:48-56 | A new boot empties the queues and confuses no old record with a new event. |
| `KernelRuns.OneMessagePerEvent` | runtime/kernelwake.go:279-284 | Two kernel keys of an application are the same message exactly if boot and event id agree. |
| `KernelRuns.DrainedToTheEnd` | runtime/kernelwake.go:325-332 | A handle that has read to the end stands over an empty queue: no event was skipped. |
| `KernelRuns.IdentifyIs` | runtime/kernelwake.go:268-277 | Records are always stamped with the boot whose queue they came from. |
| `KernelDrain.Drain` | runtime/kernelwake.go:325-382 | The drain loop for one application, with any pattern of failed writes and acknowledgements and with events posted between reads: the system invariant holds afterwards, nothing committed is lost, a drain that reads to the end has emptied the queue, and it does read to the end if nothing fails, nothing arrives and the mailbox has room. |
| `KernelDrain.RoundSucceeds` | runtime/kernelwake.go:325-382 | With room in the mailbox a round that meets no failure takes the head off the queue and leaves room for the rest. |
| `KernelRoom.FirstFits` | runtime/kernelwake.go:333-338 | The next event of a queue there is room for, by messages and bytes in both limits, is accepted. |
| `KernelRoom.EnqueuedLeavesRoom` | runtime/supervisor.go:724-739 | Accepting it, as a new message or an existing one, leaves room for the rest of the queue. |
| `KernelDrain.DrainOne` | runtime/kernelwake.go:325-382 | One event from read to forgotten, or given up, exactly as the step machine says. |
| `KernelDrain.RecoverRecords` | runtime/kernelwake.go:236-261 | Kept records move to the mailbox oldest first, one commit each; it reports success exactly if none is left. |
| `KernelDrain.Bridge.Acknowledge` | runtime/kernelwake.go:27-35 | Acknowledging removes the event and moves the cursor back over it. |
| `WakeBindings.AllBindingsScanned` | runtime/wake.go:140-222 | A whole scan keeps deliveries and artifact commits in step, in one state to commit. |
| `WakeBindings.ScanScanned` | runtime/wake.go:166-215 | Any prefix of the commits past the cursor may be scanned, stopping at a full mailbox, without a gap or a repeat. |
| `WakeBindings.ArtifactsNext` | runtime/wake.go:166-171 | The next commit past a cursor adds that commit if it is an artifact and nothing else. |
| `WakeBindings.NotYetDelivered` | runtime/wake.go:200-214 | A commit past the cursor has no message yet. |
| `WakeBindings.WakeFrame` | runtime/wake.go:140-222 | Nothing but a scan changes what a binding delivered, and the commit log may grow meanwhile. |
| `WakeBindings.WakeBind` | runtime/wake.go:32-67 | A new binding starts with nothing delivered and nothing owed. |
| `Operations.AllTimersKeep` | runtime/runner.go:98-146 | A whole timer pass keeps the state invariant, takes nothing back and moves no live timer without its message. |
| `SupervisorState.SettleMain` | runtime/runner.go:347-377 | Charge, result, acknowledgement and removal of the prepared record keep every state invariant together. |
| `SupervisorState.SettleTokens` | runtime/runner.go:347 | Adding a result and its charge keeps every application's charge equal to the capped sum of its results. |
| `SupervisorState.PushMain` | runtime/supervisor.go:737-739 | An admitted message keeps every state invariant. |
| `SupervisorState.SetMain` | runtime/supervisor.go:747-798 | New statuses in one mailbox keep every state invariant. |
| `SupervisorState.CreateMain` | runtime/supervisor.go:404-413 | A new application starts with an empty mailbox and no charge. |
| `Operations.EnqueueKeeps` | runtime/supervisor.go:703-745 | Enqueue keeps the state invariant, accepted or not. |
| `Operations.EnqueueDelivers` | runtime/supervisor.go:703-745 | After an accepted enqueue its key is in the mailbox with its payload, no other mailbox changed and no message went. |
| `Operations.ClaimMailboxKeeps` | runtime/supervisor.go:747-777 | Claiming everything pending keeps the state invariant: each claimed taint is folded in. |
| `Operations.ClaimTurnKeeps` | runtime/runner.go:228-241 | Claiming a turn keeps the state invariant. |
| `Operations.SettleTurnKeeps` | runtime/runner.go:347-408 | Settling keeps the state invariant and takes nothing back. |
| `Operations.RecoverKeeps` | runtime/supervisor.go:249-279 | Recovery of all applications keeps the state invariant and takes nothing back. |
| `Operations.ChargeIsExact` | runtime/runner.go:347 | The two nested saturating additions charge exactly the capped total. |
| `Mailboxes.PushKeeps` | runtime/supervisor.go:733-739 | An admitted message keeps limits, key uniqueness and numbering. |
| `Mailboxes.RestatusKeeps` | runtime/mailbox.go:62-69 | Claims, acknowledgements, requeues, settlement and expiry keep limits, keys and numbering. |
| `SupervisorObject.Capacity` | runtime/mailbox.go:37-56 | The nested counting loops give the outstanding messages and bytes of one application and of all. |
| `SupervisorObject.AcceptsIsAdmits` | runtime/mailbox.go:58-60 | The two `accepts` tests together are the admission rule for both measures and both limits. |
| `SupervisorObject.Supervisor.EnqueueLocked` | runtime/supervisor.go:703-745 | Refuses for the first reason that applies and then changes nothing, returns an equal message for a known key, or appends the message and its audit record. |
| `SupervisorObject.Supervisor.Send` | runtime/supervisor.go:679-700 | Reserved prefixes and oversized payloads are refused; only a new message is written; a failed write is reported and leaves the committed state. |
| `SupervisorObject.Supervisor.Persist` | runtime/supervisor.go:311-322 | A write commits the live state or restores the committed one. |
| `SupervisorObject.Supervisor.Restore` | runtime/supervisor.go:324-333 | The live state becomes the committed one. |
| `SupervisorObject.ClaimPending` | runtime/supervisor.go:758-769 | The claim loop marks every pending message, folds in exactly their taint and hands out exactly the pending messages, oldest first. |
| `SupervisorObject.Supervisor.ClaimMailbox` | runtime/supervisor.go:747-777 | Claims what is pending and writes only if something was; hands out the claimed messages once the write succeeded, and an error for an unknown or retired application or a failed write. |
| `SupervisorObject.Supervisor.AckMailbox` | runtime/supervisor.go:779-798 | Acknowledges a claimed message; reports success exactly then or if it was acknowledged before. |
| `SupervisorObject.Supervisor.ExpireMailbox` | runtime/mailbox.go:62-69 | The in-place loop expires exactly the outstanding messages. |
| `SupervisorObject.Supervisor.Retire` | runtime/supervisor.go:589-623 | Tombstones the application, expires its mail, drops its kernel records and disables its bindings in one write. |
| `SupervisorObject.Supervisor.DeliverTimers` | runtime/runner.go:98-146 | The timer loop computes the pass on states: one write for all, or a rollback at the first fault. |
| `SupervisorObject.Supervisor.DeliverLsfs` | runtime/wake.go:140-222 | The nested scan loops compute the scan on states: one write for messages and cursors, or a rollback. |
| `SupervisorObject.Supervisor.ClaimTurn` | runtime/runner.go:155-242 | Claims the first pending message of an application with work whose charge is within the band of every other that has work; none exactly if nothing is ready. |
| `SupervisorObject.Supervisor.Settle` | runtime/runner.go:347-407 | The in-place settlement computes the settlement on states. |
| `SupervisorObject.Supervisor.Load` | runtime/supervisor.go:249-279 | The recovery loops compute recovery on states, then write. |
| `SupervisorObject.Supervisor.Sweep` | runtime/taint.go:52-77 | Stale requests lapse and the oldest settled ones past the bound go, no more and no fewer. |
| `SupervisorObject.Supervisor.Stage` | runtime/kernelwake.go:333-362 | Message and kept record are staged together; a refusal stages nothing. |
| `SupervisorObject.Supervisor.IdentifyEvent` | runtime/kernelwake.go:268-277 | The search loop finds the first kept record of the same event and boot. |
| `SupervisorObject.Supervisor.Unkeep` | runtime/kernelwake.go:374-378 | Exactly the records of one event go. |
| `Scheduler.Choose` | runtime/runner.go:211-227 | The selection loop returns the first affine candidate within the band, or else the first candidate; none exactly if nothing is ready. |
| `Scheduler.Gather` | runtime/runner.go:172-210 | The gathering loop finds the least eligible charge and the ready applications in order. |
| `Scheduler.SortByCharge` | runtime/runner.go:165-171 | Orders by charge, then creation time, keeping the applications. |
| `Scheduler.Band` | runtime/runner.go:255-261 | The band is a quarter of the least charge but at least 64. |
| `Scheduler.ChoiceIsWithinBand` | runtime/runner.go:211-227 | The chosen application's charge is at most m + max(m/4, 64) for the charge m of any application that has work. |
| `Scheduler.ChargesStayLevel` | runtime/runner.go:155-261 | From equal charges, with all applications always eligible and backlogged and turn costs in 1..C, no charge ever exceeds another by more than its band and C. |
| `Scheduler.WaitIsBounded` | runtime/runner.go:155-261 | An application with charge T waits at most (n - 1) * (T + max(T/4, 64) + 1) turns, provided T + max(T/4, 64) is below the counter's maximum. |
| `Scheduler.WaitFromEqual` | runtime/runner.go:155-261 | From equal charges T an application waits at most (n - 1) * (max(T/4, 64) + 1) turns. |
| `Scheduler.EveryoneIsClaimed` | runtime/runner.go:155-261 | In a run from equal charges, from whatever point, an application with charge T waits at most (n - 1) * (2 * max(T/4, 64) + C + 1) turns below saturation. |
| `Scheduler.SaturationStarves` | runtime/runner.go:155-261 | If T + max(T/4, 64) reaches the counter's maximum the bound fails: there is a schedule of any length in which the application is never claimed. |
| `AuditChain.VerifyAudit` | runtime/supervisor.go:363-374 | Accepts exactly the chains: increasing sequence numbers, linked hashes, matching hashes. |
| `AuditChain.HashPinsHistory` | runtime/supervisor.go:363-374 | Two accepted logs that share the hash at position n agree on their first n records. |
| `AuditChain.HeadPinsLog` | runtime/supervisor.go:361-374 | Two accepted logs with the same head are the same log, so a retained head also detects truncation. |
| `AuditChain.VerifyWitness` | runtime/witness.go:90-106 | Accepts exactly the chains whose every checkpoint matches its position and is signed. |
| `AuditChain.CheckpointPinsHistory` | runtime/witness.go:52-106 | Logs accepted with a common checkpoint agree up to it. |
| `AuditChain.AuditedKeeps` | runtime/supervisor.go:376-383 | Appending a record keeps the chain and every recorded checkpoint valid. |
| `AuditChain.CosignedKeeps` | runtime/witness.go:52-84 | Recording a checkpoint and trimming to 256 keeps the log valid and the checkpoints advancing. |
| `Confirmations.EscalateKeeps` | runtime/taint.go:52-77 | Sweeping leaves room for one more request exactly when fewer than 64 wait. |
| `Confirmations.RedeemGate` | runtime/taint.go:173-204 | A request that can be redeemed has never been redeemed before. |
| `Confirmations.SettleGate` | runtime/taint.go:208-237 | Settling records the decision without disturbing any release. |
| `Confirmations.UpdateKeeps` | runtime/taint.go:173-237 | Settling, lapsing or using a request frees a place and adds none. |
| `ContextStore.ApplyRefines` | runtime/context_store.go:143-438 | Every transaction does to plain byte strings what its abstract form says, a replay returns the first result and changes nothing, and a refusal is for the stated reason and no other. |
| `ContextStore.RunAppends` | runtime/context_store.go:213-234 | Between restores a context holds what it held plus every accepted append to it, in order, whatever else is done to any context. |
| `ContextStore.ForkDiverges` | runtime/context_store.go:236-267 | A fork gives the child the parent's bytes; afterwards each holds those bytes plus its own accepted appends only. |
| `ContextStore.RestoreRecalls` | runtime/context_store.go:310-427 | A checkpoint, any run of operations, then a restore under an unused key: the restore is accepted and the bytes are those held at the checkpoint. |
| `ContextStore.KeysAreFinal` | runtime/context_store.go:174-211 | After any run, reusing an accepted key returns the first result and leaves the store unchanged for the same kind and input, and is refused otherwise. |
| `ContextStore.DigestExact` | runtime/context_store.go:188 | A digest stands for exactly one kind and input. |
| `ContextStore.RunGrows` | runtime/context_store.go:174-211 | Every run keeps references, operation rows and commit rows consistent and takes nothing back. |
| `ContextStore.LogGrows` | runtime/context_store.go:204-209 | One operation row and one commit row per key, with consecutive cursors. |
| `ContextStore.PagingIsComplete` | runtime/context_store.go:523-551 | Reading on from the last cursor with any limits, while the log grows, yields each commit of the context once and in order, and all of them once as many of the calls saw the final log as it has commits to give. |
| `ContextStore.SelectResumes` | runtime/context_store.go:537-549 | Reading on from a returned cursor gives exactly what followed it. |
| `ContextStore.SnapshotFaithful` | runtime/context_store.go:310-349 | A snapshot recalls the context it was taken of and always succeeds on a well-formed store. |
| `ContextStore.AppendRefines` | runtime/context_store.go:213-234 | Append concatenates. |
| `ContextStore.ForkRefines` | runtime/context_store.go:245-267 | Fork copies the parent's bytes and leaves the parent's unchanged. |
| `ContextStore.CheckpointRefines` | runtime/context_store.go:365-382 | Checkpoint saves the current bytes under its handle. |
| `ContextStore.RestoreRefines` | runtime/context_store.go:384-427 | Restore brings back exactly the saved bytes. |
| `ContextStore.SavedStable` | runtime/context_store.go:365-427 | The bytes saved under a checkpoint never change. |
| `ContextDatabase.Database.Mutate` | runtime/context_store.go:174-211 | The table updates of any operation, with rollback on error, compute the transaction. |
| `ContextDatabase.Database.Snapshot` | runtime/context_store.go:310-349 | The page loop computes the snapshot. |
| `ContextDatabase.Database.InsertPages` | runtime/context_store.go:401-412 | The restore loop inserts every page exactly if all are present with their recorded sizes. |
| `ContextDatabase.Database.Commits` | runtime/context_store.go:523-551 | The paging loop returns the first commits past the cursor, up to the limit. |
| `ContextDatabase.Database.constructor` | runtime/context_store.go:59-98 | A new database is well formed and empty. |
| `EngineProtocol.Interleave` | runtime/protocol.go:126-315 | Every interleaving of operations from a new engine ends in a state satisfying the engine invariant. |
| `EngineProtocol.Perform` | runtime/protocol.go:126-315 | Every operation keeps the engine invariant. |
| `EngineProtocol.SessionGuarantees` | runtime/protocol.go:63-119 | What the transport took, recorded event by event as it was handed over, is exactly 1..deliveredSeq in order; unsuspended means fully delivered; floor plus retained equals the event count and retained events are the log's tail; byte counters are the true sums within their caps; the ledger is the capped sum of reported usage; no identified prompt ran twice; events carry their turn's number; counters never overflow. |
| `EngineProtocol.SettledLogIsTurns` | runtime/protocol.go:245-289 | The log of an idle session is a sequence of turns of two to four events, each started once, first, and ended once, last; the events of the i-th all carry the number i. |
| `EngineProtocol.AdmissionExactly` | runtime/protocol.go:170-244 | A prompt is accepted exactly when it is within limits and the session is open, attached, idle and has room. |
| `EngineProtocol.IssuedExactly` | runtime/limits.go:33-40 | Exactly the names handed out so far are recognised. |
| `EngineProtocol.Engine.Emit` | runtime/protocol.go:63-87 | Appends the event, evicts down to both caps, and offers it; a refusal suspends the session and keeps the event. |
| `EngineProtocol.Engine.EnforceSessionCaps` | runtime/protocol.go:71-73 | The eviction loop ends within the session caps and drops only oldest events. |
| `EngineProtocol.Engine.EnforceEngineBudget` | runtime/protocol.go:76-77 | The budget loop ends within the engine budget. |
| `EngineProtocol.Engine.EvictLargest` | runtime/limits.go:57-73 | Reclaims from a largest holder, or nothing is retained anywhere. |
| `EngineProtocol.EvictedExact` | runtime/limits.go:78-89 | Dropping the oldest event leaves the retained events the tail of the log above the raised floor, with an exact byte count. |
| `EngineProtocol.Engine.LargestHolder` | runtime/limits.go:57-69 | Finds a session retaining at least as many bytes as any other that retains an event. |
| `EngineProtocol.Engine.FlushSession` | runtime/protocol.go:99-119 | Hands the transport each event it lacks once, in order, until one is refused, and records each one taken; reports expiry exactly when the history no longer reaches back, and otherwise how far it got. |
| `EngineProtocol.Engine.Resume` | runtime/protocol.go:202-211 | Resuming extends what the transport took from the delivered number on, without gap or repeat, and suspends the session again on any failure. |
| `EngineProtocol.Engine.NewSession` | runtime/protocol.go:139-155 | A session is opened exactly when the engine is open and has room, under a name never used before. |
| `EngineProtocol.Engine.PromptStart` | runtime/protocol.go:189-249 | A known request replays its reply without a provider run; a rejected one changes nothing; an accepted one emits its started event. |
| `EngineProtocol.Engine.PromptFinish` | runtime/protocol.go:253-289 | Accounts, emits and remembers the outcome, and releases a session closed meanwhile. |
| `EngineProtocol.Engine.Stop` | runtime/protocol.go:212-224 | Abort and close cancel a running turn and release an idle closed session, touching no other. |
| `EngineProtocol.Engine.CloseEngine` | runtime/protocol.go:303-315 | Closing leaves only running sessions, each marked closed. |
| `EngineProtocol.Engine.EventsSince` | runtime/limits.go:100-119 | Returns the exact suffix of the log, or expired. |
| `EngineProtocol.TailAfter` | runtime/limits.go:107-117 | The filter loop returns the retained events past a number. |
| `UsageLedger.ChargeIsCappedSum` | runtime/ledger.go:38-43 | Saturating step by step equals capping the exact sum. |
| `UsageLedger.Ledger.Apply` | runtime/ledger.go:17-36 | Applies, ignores or refuses an amount as the ledger rules say and keeps the charge the capped sum of accepted amounts within the limit. |
| `UsageLedger.SaturatingAdd` | runtime/ledger.go:38-43 | The minimum of the sum and the largest 64-bit value. |
| `Policy.ChainNarrows` | runtime/policy.go:57-120 | Whatever a descendant allows, a settled ancestor of its chain allows, for chains of any length and whatever the tokens between them grant. |
| `Policy.ChainsNarrowExactly` | runtime/policy.go:57-120 | All chains from a token only narrow exactly if, for each of its grants that reopens, all that it can be narrowed into lies within another of its grants that does not reopen. |
| `Policy.ReopeningExample` | runtime/policy.go:108-120 | The token with the single grant `/a/**/**` does not allow `/a`, but a token attenuated from it does. |
| `Policy.NarrowsExactly` | runtime/policy.go:108-120 | Containment below a grant is safe exactly for grants whose base does not itself end in a recursive suffix under a clean absolute path. |
| `Policy.ContainsTransitive` | runtime/policy.go:108-120 | Containment is transitive below a grant that does not reopen. |
| `Policy.ReopeningWitness` | runtime/policy.go:108-120 | For every grant that reopens there are grants below it that it does not itself contain. |
| `Policy.Attenuate` | runtime/policy.go:57-79 | Succeeds exactly if verified, with the issuer's key, a caveat and something left; keeps exactly the covered grants, in order. |
| `Policy.Allows` | runtime/policy.go:81-88 | Allows exactly what some grant on the object contains. |
| `Policy.Evaluate` | runtime/policy.go:154-168 | Allowed exactly if some permit matches and no forbid does, in any rule order. |
| `Policy.ChainCaveats` | runtime/policy.go:76-78 | Caveats only grow down a chain and subject and key stay. |
| `Revocation.RevocationCutsChain` | runtime/revocation.go:41-61 | Revoking a link denies exactly that link and its descendants. |
| `Revocation.RevocationScope` | runtime/revocation.go:41-107 | A new entry denies its link and the links below, and leaves ancestors and tokens of another subject or key as they were. |
| `Revocation.RevokedExactly` | runtime/revocation.go:41-61 | An entry hits exactly its own token and the tokens of its subject and key whose caveats strictly extend its. |
| `Revocation.SiblingScope` | runtime/revocation.go:48-61 | Of two tokens attenuated to the same caveats, revoking one leaves the other usable but denies everything attenuated from the other. |
| `Revocation.MatchEntry` | runtime/revocation.go:41-61 | The prefix loop computes the relation. |
| `Revocation.Registry.Revoke` | runtime/revocation.go:75-107 | Entries are never evicted; a known token changes nothing; a full registry refuses and says so in the audit log; an entry and its audit record are committed together or not at all. |
| `Revocation.Registry.TokenRevoked` | runtime/revocation.go:63-70 | A token is revoked exactly if some entry hits it. |
| `Bpf.FilterMatchesPolicy` | runtime/sandbox/native/aok-sandbox.c:55-106 | For every deny list, target, flag and call the threaded program returns the stated verdict. |
| `Bpf.SocketsClosedWithoutNetwork` | runtime/sandbox/native/aok-sandbox.c:95-102 | Without the network flag a socket call is allowed exactly for family 0xFFFFFFFF, the number the program uses as a placeholder. |
| `Bpf.PlaceholderExample` | runtime/sandbox/native/aok-sandbox.c:95-102 | The same on x86-64 numbers: a socket call with family 0xFFFFFFFF is allowed by every deny list that does not name it. |
| `Bpf.RunDenies` | runtime/sandbox/native/aok-sandbox.c:38 | Walking a deny table of any length stops exactly at a listed number. |
| `Bpf.RunPreamble` | runtime/sandbox/native/aok-sandbox.c:58-65 | A wrong architecture or an x32 number kills; otherwise the number is in the accumulator. |
| `Bpf.RunTail` | runtime/sandbox/native/aok-sandbox.c:87-102 | The clone and socket checks return their stated verdicts. |
| `Launcher.RoundTrip` | runtime/sandbox/native/aok-sandbox.c:116-138 | For every policy and command that is accepted the launcher recovers the same ordered rules, network flag, descriptors and command, and adds the rule for the command's own path. |
| `Launcher.CommandLineIsUnambiguous` | runtime/sandbox/policy.go:21-49 | Equal command lines carry equal rights and equal commands. |
| `Launcher.Args` | runtime/sandbox/policy.go:21-49 | Prints the options of an accepted policy and refuses exactly the others. |
| `Launcher.ParseArguments` | runtime/sandbox/native/aok-sandbox.c:116-138 | The index loop computes the parse, the rule for the command's path included. |
| `Launcher.StrtolOfDec` | runtime/sandbox/native/aok-sandbox.c:123-125 | Reading back a printed descriptor gives the descriptor, with nothing left over. |

## Left out

- Guarantees.DeliveriesMatchCommits: covers the user-space branch of the LSFS scan; with a kernel bridge the scan posts to the kernel queue and the local binding is not written back before that write, which is not modelled.
- Guarantees.ConsumedTaintIsCharged: covers the taint declared in payloads; bits a provider reports are folded in by a write of their own whose failure is ignored, so no claim is made for them.
- Guarantees.DrainLosesNothing: covers records stamped with a boot id and applications that were never retired; records of an older format without a boot id are not modelled.
- Guarantees.CommittedStateOnlyAccumulates: does not claim that a tombstone is permanent, because exhausting the budget while a turn is in flight overwrites it with frozen.
- Guarantees.SettlementIsExactlyOnce: does not rely on one turn per application at a time and does not state it, because the in-flight mark is cleared both by finishTurn and by executeTurn; it holds for any number of turns in flight.
- ContextStore.KeysAreFinal: the digest of a fork covers the kind alone, as in the source, so a fork repeated under the same key with another child owner counts as the same operation.
- ContextDatabase.Database.Mutate: SQLite transactions are atomic updates of table values; file locks, journalling and file modes are not modelled.
- Launcher.RoundTrip: argument texts are sequences of characters; whether a delegated descriptor is open and whether a rule path exists are decided by the system at start.
- Bpf.FilterMatchesPolicy: the deny list is a parameter, so the names of the listed system calls are not part of the statement.
- SupervisorObject.Supervisor.DeliverTimers: the sorted order of the keys is a parameter of the pass; the results hold for every order.
- SupervisorObject.Supervisor.Load: the generation counter is unbounded; the source refuses to start an application that has used up all 2^64 generations.
- AuditChain.HashPinsHistory: the hash is a parameter assumed injective on records; SHA-256 (section 6.2 of FIPS 180-4) is not modelled.
- Policy.Attenuate: signatures are a predicate; Ed25519 (section 5.1 of RFC 8032) is not modelled.
- Identity of messages and applications: a message is named by its number, an application id holds no colon, and timers and bindings are keyed by a pair instead of a joined text.
- Wrap-around of the supervisor's sequence number at 2^64, and context keys longer than 1024 bytes for message numbers with more than a thousand digits, which the context store refuses.
- The retiring state: it exists only inside one locked operation and is never visible to another.
- Routing policies and route records: a route record only takes a sequence number in the model; cached-token and failure counters are not kept.
- Kernel application numbers: a queue is named by its application.
- Revocation.Registry.Revoke: the registry has its own committed copy and audit notes; it is not part of the step machine, whose audit chain is proved separately.
- Statistics, artifacts and page listings of the context store, which read what the theorems already describe or add operations of the same shape as append.
- Control RPC, JSON-RPC framing, sockets, vsock, peer credentials and HTTP providers: input and output.
- Kernel inference provider and the kernel half of the ledger protocol.
- Gateway, host file access, router, web extraction, cgroup control and restart windows: easier variants of the properties above, or dependent on URL and file libraries.
