# PomodoroXII backend: the active session and the modules around it

A Dafny model of the backend's eight most stateful components, and proofs of
what they promise.

- **Active-session coordination** (`coordinator_*.dfy`, `child_evidence.dfy`,
  `coordination_rows.dfy`, `coordinator.dfy`). One Meta database holds a
  singleton locator and an operation journal; each Space database holds
  envelopes, receipts, mutation journal rows and Sessions. Every Meta
  transaction and every durable Space write is one atomic block; a command can
  die between any two. `CoordinatorTransactions` gives each block as a function
  of the rows, `CoordinatorProtocol` the interleavings of any number of
  commands with crashes, recoveries and other writers of Session rows, and
  `Coordinator.ActiveSessionCoordinator` the imperative methods, tied block by
  block to the protocol by a ghost history. Theorems about reached protocol
  states are therefore theorems about every state of that object.
  `CoordinatorOutcomes` and `ChildOutcomes` say, in columns and without those
  functions, under which cause each block gives each answer and what it leaves;
  the object's methods promise the same.
  `reachable_runs.dfy` runs one conflict from an empty database, so that no
  conditional theorem about reached states is empty.
- **Recovery inspector** (`recovery_*.dfy`). The classifier over raw, possibly
  damaged column values; the exact cause of every code and the whole decision
  table in columns; its soundness on any evidence; and its agreement with the
  rows the coordinator leaves behind.
- **Command reconciler** (`reconciler_*.dfy`, `command_reconciler.dfy`,
  `admission_contract.dfy`). Claim-guarded replay over every interleaving of
  admissions and single envelopes by any number of root commands; a whole call
  is one such run.
- **Folder policy** (`folder_*.dfy`). Acyclicity, descendant search, cascade.
- **Effort projection** (`effort_*.dfy`). The fold against a declarative sum.
- **Engine manager** (`engine_pool.dfy`, `space_manager.dfy`). Reference counts,
  drain and resume under every interleaving.
- **Sliding-window limiter** (`sliding_window.dfy`, `rate_limit.dfy`).
- **Frontmatter codec** (`frontmatter*.dfy`).

`symbols.dfy` holds what the components share. SHA-256 digests and derived
child operation ids are free constructors of `Text`: equal terms are equal
strings and different terms are different strings. That collision freedom is
the only thing about the encodings the proofs use.

`dafny verify dfyconfig.toml` checks the whole project.

## Findings

Where a property does not hold of the code on all inputs, the code is modelled
as it is and the exact condition is proved.

- A resolve command without `decision_at` freezes the clock instead. Once the
  winner's envelope is written, a restart at another clock reading can never
  finish (`RestartConvergesIff`); a payload with `decision_at` always can
  (`DecisionFrozen`).
- A persisted conflict cannot always be completed. In a reached state a
  conflict in `awaiting_resolution` is completed by some continuation if and
  only if the locator still points at it or at its resolution, and no child of
  that resolution has a final journal row other than an applied one or an
  envelope under another payload hash (`CompletableIff`). Two things break it:
  - a touch checks neither the locator's state nor any phase, so one accepted
    heartbeat, pause or takeover takes the locator off every unfinished conflict
    (`TouchStrands`), as an `end` does, and nothing points it back
    (`StrandedNeverCompletes`);
  - a resolution child settled against its resolution, or frozen by a restart
    at another clock reading, stays so.
- `activate_provisional` has no replay path. Whenever the command dies before
  `awaiting_resolution` (`DyingForsakes`), its conflict stays `claimed` and is
  never completed by anything (`AbandonedNeverCompletes`), although resolves of
  it are accepted. If it dies just before its last transaction, the inspector
  still classifies the conflict `awaiting_resolution`
  (`ReachedActivationDies`, `ForsakenLooksAwaiting`): reader and writer disagree.
- `_contract_payload_hash` documents that identity keys are not business, but
  removes only `pair` and `children`. The inspector removes the identity keys
  too, so it accepts the coordinator's own intent exactly when the payload uses
  none of them (`ContractIntentVerifies`).
- The receipt policy refuses every `unknown` receipt the coordinator writes,
  because it carries no replay coordination: a raised mutation ends the command
  without a receipt, the journal its only trace (`RaisedChildHasNoReceipt`).
  Receipts of reached states are therefore all terminal (`ReceiptsReport`), and
  on them the coordinator's rule is the policy's, whatever coordination is
  expected (`ReachedPolicyAgrees`).
- `not_needed` is immutable for the receipt policy but reopened by a
  reconciliation admission (`NotNeededIsReopened`).
- Creating a folder makes no cycle check. It keeps the relation acyclic exactly
  when the parent is not already under the new id (`CreateKeepsAcyclicIff`,
  `CreateCanCloseCycle`); in a table without dangling parents it always does.
  The search for descendants ends exactly when no folder it can reach is below
  itself (`SearchEndsIff`); in that cycle it never does (`ClosedCycleIsEndless`).
- An update may set `trashed_at` without a cascade, alone or together with
  `parent_id`; `UprightIff` says for every payload when that leaves an active
  folder under a trashed one.
- A drain whose poll was cancelled returns at once when its owner calls it
  again, with engines still cached and referenced
  (`CancelledDrainReturnsBusy`). Eviction consults no reference count
  (`EvictionIff`).
- A limit of zero or fewer requests raises `IndexError` instead of rejecting,
  exactly when the key has no unexpired admission and a client may still be
  added (`RateLimitMiddleware.Call`, `FirstUnderZeroQuota`).
- Wrapping content in empty metadata prints a block that no reader recognises
  (`EmptyMetaIsNotFrontmatter`).

## Model

| member | source | states |
|---|---|---|
| CoordinatorSteps.NextKeepsInv | backend/app/focus_session/coordinator.py:431-1456 | every block of every command, every crash, recovery and foreign Session write keeps the protocol invariant and takes back no identity, envelope or proof |
| CoordinatorSteps.ReachedInv | backend/app/focus_session/coordinator.py:431-1456 | the invariant holds in every reached state |
| CoordinatorTheorems.ExecutesOnlyUnexecuted | backend/app/focus_session/coordinator.py:1661-1771 | in every run the mutation of a child is called only while its journal has no row and its envelope exists |
| CoordinatorTheorems.AppliedAtMostOnce | backend/app/focus_session/coordinator.py:1661-1771 | in every run each child mutation takes effect at most once, and exactly when the journal says it was applied |
| CoordinatorTheorems.SettledForever | backend/app/focus_session/coordinator.py:1560-1754 | an applied, rejected, conflicting or aborted child keeps its journal row through every continuation |
| CoordinatorTheorems.EvidenceBeforePhase | backend/app/focus_session/coordinator.py:1661-1771 | a conflict past `claimed` and a resolution past `claimed` have both named children proven: envelope, succeeded receipt, applied journal |
| CoordinatorTheorems.FirstChildBeforeSecond | backend/app/focus_session/coordinator.py:1661-1771 | a loser envelope exists only after the winner was proven, an active one only after the candidate; every envelope belongs to the operation that names it |
| CoordinatorTheorems.ResolutionIsUnique | backend/app/focus_session/coordinator.py:880-950 | under any interleaving at most one resolution row exists per conflict |
| CoordinatorTheorems.CompletionIsAtomic | backend/app/focus_session/coordinator.py:1038-1103 | a resolution is completed if and only if its conflict is, and then the conflict names it |
| CoordinatorTheorems.AbandonedNeverCompletes | backend/app/focus_session/coordinator.py:560-672 | a conflict whose activation ended before `awaiting_resolution` stays claimed in every continuation, and no resolution of it completes |
| CoordinatorStranded.TouchStrands | backend/app/focus_session/coordinator.py:1311-1400 | an accepted touch of any kind takes the locator off every unfinished conflict and its resolution |
| CoordinatorStranded.StrandedNeverCompletes | backend/app/focus_session/coordinator.py:1311-1400 | once the locator has left an unfinished conflict, no continuation points it back, completes the conflict or completes any resolution of it |
| CoordinatorCompletable.CompletableIff | backend/app/focus_session/coordinator.py:675-1116 | in every reached state a conflict awaiting its resolution is completed by some continuation if and only if the locator is at it or at its resolution and no child of that resolution is settled or frozen against it |
| CoordinatorActivation.ReachedActivationAwaits | backend/app/focus_session/coordinator.py:560-672 | from every reached state, an accepted activation left to run ends with its conflict awaiting the resolution, both children proven, both Sessions in conflict, and nothing else in Meta changed |
| CoordinatorActivation.DyingForsakes | backend/app/focus_session/coordinator.py:560-672 | an activation forsakes its conflict by dying at any point before its last transaction |
| CoordinatorActivation.ReachedActivationDies | backend/app/focus_session/coordinator.py:626-639 | an activation killed just before its last transaction leaves both children proven and the conflict forsaken |
| CoordinatorAnchor.ReachedRecords | backend/app/focus_session/coordinator.py:880-950 | in every reached state a resolution row holds all that issuing its command again needs, and a locator at an unfinished conflict or resolution stands where that row says |
| CoordinatorReceipts.ReceiptsReport | backend/app/focus_session/coordinator.py:327-393 | every receipt of a reached state is terminal, succeeded exactly when the journal row is applied, and otherwise reports a refused one |
| CoordinatorReceipts.ReachedPolicyAgrees | backend/app/focus_session/policy.py:2219-2305 | on the receipts of a reached state the coordinator's receipt rule and the policy's are the same, whatever coordination is expected |
| CoordinatorReceipts.RaisedChildHasNoReceipt | backend/app/focus_session/coordinator.py:1690-1740 | a child whose mutation raised ends its command without a receipt, in every reached state |
| CoordinatorEpoch.EpochAccounting | backend/app/focus_session/coordinator.py:1311-1456 | since its creation the locator's epoch grew by exactly the number of takeover rows plus resolution rows committed |
| CoordinatorEpoch.OwnerMovesOnlyByTakeover | backend/app/focus_session/coordinator.py:1311-1456 | the owner of a living locator changes only when a takeover row is committed for the first time |
| CoordinatorConvergence.FinalCheckpoint | backend/app/focus_session/coordinator.py:1038-1116 | the crash-free run ends with the locator active at the winner at the next epoch, both operations completed, both children proven |
| CoordinatorConvergence.OneAttempt | backend/app/focus_session/coordinator.py:675-1116 | an attempt crashed after any number of steps only moves forward along the crash-free run, and twenty steps finish it |
| CoordinatorConvergence.Converges | backend/app/focus_session/coordinator.py:675-1116 | any number of crashed attempts followed by one that runs ends in the store of the crash-free run |
| CoordinatorConvergence.DecisionFrozen | backend/app/focus_session/coordinator.py:1793-1831 | two different clock readings give one decision time if and only if the payload carries `decision_at` |
| CoordinatorConvergence.RestartConvergesIff | backend/app/focus_session/coordinator.py:675-1116 | once the winner's envelope is durable a restart completes if and only if it freezes the same decision time, and otherwise writes nothing |
| CoordinatorRestart.ReachedReady | backend/app/focus_session/coordinator.py:702-873 | in every reached state a new resolve command bound to an awaiting conflict meets the premises of convergence: nothing was ever written for its children |
| CoordinatorRestart.ReachedConverges | backend/app/focus_session/coordinator.py:675-1116 | crash-restart convergence from every reached state with an awaiting conflict both of whose Sessions are in conflict, with the promised outcome |
| CoordinatorIdentity.NextKeepsIdentities | backend/app/focus_session/coordinator.py:278-326 | every step keeps: declared children, envelopes of the declared place, compiled mutations only under the declared hash, locator and resolution agreeing |
| CoordinatorIdentity.AppliedAsDeclared | backend/app/focus_session/coordinator.py:1661-1771 | in every run an applied child's envelope carries exactly the place and payload hash its operation declared, also after a restart that recomputed the child |
| CoordinatorOutcomes.StartOutcome | backend/app/focus_session/coordinator.py:431-524 | each refusal of a claim if and only if its cause holds, and every column of the rows it writes |
| CoordinatorOutcomes.ActivateOutcome | backend/app/focus_session/coordinator.py:560-625 | each refusal of an activation if and only if its cause holds; the conflict row declares both children under their derived ids and literal hashes, and the locator stands at the running Session |
| CoordinatorOutcomes.ReadOutcome | backend/app/focus_session/coordinator.py:702-873 | each refusal of a resolve command if and only if its cause holds, the completed replay recognised by its payload, otherwise the plan in columns |
| CoordinatorOutcomes.TouchOutcome | backend/app/focus_session/coordinator.py:1311-1400 | each refusal of a touch if and only if its cause holds; who owns the locator afterwards and at which epoch |
| CoordinatorOutcomes.EndOutcome | backend/app/focus_session/coordinator.py:1118-1186 | each refusal of an end if and only if its cause holds; a replay changes nothing, a first one records its row in the locator's Space |
| CoordinatorOutcomes.ClaimOutcome | backend/app/focus_session/coordinator.py:874-950 | when a resolution's claim commits, and the row and locator it leaves |
| CoordinatorOutcomes.CompleteOutcome | backend/app/focus_session/coordinator.py:1038-1103 | when the completion commits, and what each of its three rows becomes |
| CoordinatorOutcomes.ResolutionChildIs | backend/app/focus_session/coordinator.py:1793-1831 | the winner and loser children with the exact fields their hashes are taken over |
| ChildOutcomes.JournalReading | backend/app/focus_session/coordinator.py:1458-1558 | which journal rows read as a conflict, a rejection, an abort or not executed |
| ChildOutcomes.AppliedReading | backend/app/focus_session/coordinator.py:1458-1558 | a child reads as applied if and only if batch, operation, result lists and every step agree that it was |
| ChildOutcomes.DecisionTable | backend/app/focus_session/coordinator.py:1560-1659 | a decision is taken if and only if its entry of the table holds |
| ChildOutcomes.ProofOutcome | backend/app/focus_session/coordinator.py:1832-1934 | each refusal of the persisted proof if and only if its cause holds, and every field of the rebuilt proof |
| ChildOutcomes.GateOpens | backend/app/focus_session/policy.py:1455-1560 | the policy's gate for a resolution child: unfinished proof, the locator it froze, the child it names, a Session in conflict that has not ended |
| CoordinatorReplay.CompletedReplays | backend/app/focus_session/coordinator.py:722-733 | in every reached state a command with the hash of the locator's own completed resolution is answered as already done |
| CoordinatorReplay.FinishedReplays | backend/app/focus_session/coordinator.py:675-1116 | from every reached state, once a resolve command has brought the locator to active on itself, issuing it again at any clock reading is answered as already done |
| Coordinator.ActiveSessionCoordinator.ClaimSlot | backend/app/focus_session/coordinator.py:431-524 | `start`'s transaction: each refusal under exactly its cause, the idempotent replay that changes nothing, or the new claim with every column of its two rows |
| Coordinator.ActiveSessionCoordinator.Start | backend/app/focus_session/coordinator.py:431-558 | the answer of the claim; the claimed Session is created when it did not exist and the Space accepted it, and no other Session row changes |
| Coordinator.ActiveSessionCoordinator.ReadConflict | backend/app/focus_session/coordinator.py:702-873 | each refusal under exactly its cause; already done if and only if the locator is active on this command's own completed resolution, its hash is the digest of this payload and its conflict row exists; otherwise the plan the rows dictate, with both children and their hashes; no row changes |
| Coordinator.ActiveSessionCoordinator.ClaimTransaction | backend/app/focus_session/coordinator.py:874-950 | commits if and only if the row is this plan's own, or the locator still stands at the conflict at the expected epoch, or already at the winner; the row and the moved locator column by column; otherwise nothing |
| Coordinator.ActiveSessionCoordinator.CompletionTransaction | backend/app/focus_session/coordinator.py:1038-1103 | three conditional updates commit together if and only if all three rows stand as expected, each changing its columns alone, and are all rolled back otherwise |
| Coordinator.ActiveSessionCoordinator.DecideChild | backend/app/focus_session/coordinator.py:1560-1659 | on any evidence the one decision whose table entry holds, where the command goes next, and whose leases are freed |
| Coordinator.ActiveSessionCoordinator.RunMutation | backend/app/focus_session/coordinator.py:1690-1740 | which receipt each reply asks for, and what is left in journal and Session rows: only a permitted mutation takes effect, the winner becomes authoritative, the loser ends invalid |
| Coordinator.ActiveSessionCoordinator.ExecuteChildren | backend/app/focus_session/coordinator.py:1661-1771 | the loop over the roles and the second reading of the receipts are a run of the protocol |
| Coordinator.ActiveSessionCoordinator.ResolveActivationConflict | backend/app/focus_session/coordinator.py:675-1116 | the whole command is exactly one issued protocol attempt; each refusal if and only if its cause holds of the rows, already done if and only if this command's payload completed the resolution; both change nothing; a finished one leaves the locator active on the completed resolution |
| Coordinator.ActiveSessionCoordinator.ActivateProvisional | backend/app/focus_session/coordinator.py:560-672 | the whole command is exactly one issued protocol attempt; it is refused if and only if a stated cause holds; a finished one leaves the conflict awaiting resolution |
| Coordinator.ActiveSessionCoordinator.TouchLocator | backend/app/focus_session/coordinator.py:1311-1400 | each refusal if and only if its cause holds; an accepted first takeover moves the locator to the payload's device and tab one epoch later, every other accepted touch keeps device, tab and epoch; the new row column by column |
| RecoveryAuthority.VerifyNamedChildren | backend/app/focus_session/recovery_authority.py:816-852 | the loop returns the outcome of every role in order, or the code of the first role that has none |
| RecoveryAuthority.VerifyRelationChain | backend/app/focus_session/recovery_authority.py:1110-1162 | no problem if and only if the relation ends within seven links through pairwise distinct, well-formed rows agreeing on one identity; each code is the one the walk along the relation stops with |
| RecoveryAuthority.CyclicNeverAccepted | backend/app/focus_session/recovery_authority.py:1110-1162 | a relation that comes back to a row it has met is never accepted, whatever its length |
| RecoveryAuthority.DerivationProblems | backend/app/focus_session/recovery_authority.py:1195-1222 | no problem if and only if every named role declares the id derived from the parent |
| RecoveryInspector.Inspect | backend/app/focus_session/recovery_authority.py:378-451 | clean and vacant if and only if the readable tables hold no locator; each of the Meta and relation codes if and only if its cause holds of the columns; otherwise the decision table's entry |
| RecoveryInspector.ExamineIs | backend/app/focus_session/recovery_authority.py:378-437 | before the relation: each refusal if and only if its cause in columns holds, and the rows that go on |
| RecoveryTable.ClassifyFollows | backend/app/focus_session/recovery_authority.py:462-750 | on any evidence the answer is the entry of a decision table written in columns: its code is that of the first failing check, and what is clean reports the outcomes and Sessions found |
| RecoveryTable.RoleOutcome | backend/app/focus_session/recovery_authority.py:854-895 | the outcome of any named role: where its Session is, then the first failing check of its child, or what was found |
| RecoveryTable.DerivationCodes | backend/app/focus_session/recovery_authority.py:1195-1222 | each derivation problem of one role, on any declaration |
| RecoveryColumns.StopsOnce | backend/app/focus_session/recovery_authority.py:1110-1162 | the walk along a relation stops at one place with one problem |
| RecoveryAgreement.VerifiedIsProven | backend/app/focus_session/recovery_authority.py:854-895 | one role passes derivation and verification with a succeeded receipt if and only if its derived id has the declared envelope, the pair's place and a succeeded receipt |
| RecoveryAgreement.NamedChildrenIff | backend/app/focus_session/recovery_authority.py:816-852 | both named children verify as succeeded if and only if both are proven under their derived, distinct ids |
| RecoveryAgreement.CleanMeansProven | backend/app/focus_session/recovery_authority.py:536-750 | on any evidence a clean claiming conflict or resolution has both children proven and an intact relation; a claimed resolution is never clean |
| RecoveryAgreement.ClassifyIff | backend/app/focus_session/recovery_authority.py:462-750 | on any evidence a classification is given if and only if the documented decision table warrants it; every other combination requires recovery |
| RecoveryWriter.ContractIntentVerifies | backend/app/focus_session/recovery_authority.py:1074-1107 | the inspector accepts what `_intent` wrote if and only if the payload uses no identity key |
| RecoveryWriter.ChildPlaceRoundTrips | backend/app/focus_session/recovery_authority.py:1250-1270 | the reader places every role where the writer placed it |
| RecoveryWriter.ChildrenRoundTrip | backend/app/focus_session/recovery_authority.py:1225-1247 | the children an intent declares decode to the same ids and hashes |
| RecoveryWriter.TransferredIsRecoverable | backend/app/focus_session/recovery_authority.py:688-750 | every reached state between transfer and completion, with the Sessions as the children set them and legible identities, is classified `recoverable_claiming` |
| RecoveryWriter.AwaitingIsRecognised | backend/app/focus_session/recovery_authority.py:623-686 | every reached conflict awaiting its resolution under the locator, with legible identities, is classified `awaiting_resolution` |
| RecoveryWriter.ForsakenLooksAwaiting | backend/app/focus_session/recovery_authority.py:536-621 | a forsaken conflict with both children proven is classified `awaiting_resolution` although no continuation completes it |
| ReconcilerProtocol.AdmitAll | backend/app/focus_session/policy.py:1257-1335 | an admission succeeds if and only if every id is admissible, and then has exactly one verdict per id |
| ReconcilerTheorems.AdmissionIff | backend/app/focus_session/policy.py:1257-1320 | an admitted id is claimed, abandoned or observed exactly under the stated conditions |
| ReconcilerTheorems.ReplayIsGuarded | backend/app/focus_session/command_reconciler.py:360-416 | over every interleaving of admissions and single envelopes every execution had its guard, terminal receipts never change, and a receipt that reports an outcome reports the stored one |
| ReconcilerTheorems.ReceiptsTellTheOutcome | backend/app/focus_session/command_reconciler.py:244-254 | in every run a succeeded receipt's command was accepted, a conflicting one's was rejected with one of three codes, and a failed one's with any other |
| ReconcilerOutcomes.OutcomeIsRecorded | backend/app/focus_session/command_reconciler.py:375-416 | a stored or replied outcome that may be written leaves exactly the receipt it stands for, as the answer |
| ReconcilerOutcomes.ReconcileOutcome | backend/app/focus_session/command_reconciler.py:375-416 | on any rows: executed if and only if the guard holds, and the answer and rows afterwards, case by case |
| ReconcilerOutcomes.AdmitOutcome | backend/app/focus_session/policy.py:1257-1335 | each refusal of an id if and only if its cause holds, and the row an admitted id gets |
| ReconcilerTheorems.CallIsRun | backend/app/focus_session/command_reconciler.py:360-373 | an uninterrupted call is its admission followed by some of its envelopes, so every statement about runs covers calls cut or interleaved anywhere between them |
| ReconcilerTheorems.FinishedClaimNeverExecutes | backend/app/focus_session/command_reconciler.py:375-416 | after a recorded `replay_finished_unknown` that root never executes that command again, whatever block of whatever call follows |
| ReconcilerTheorems.ClaimIsNotStolen | backend/app/focus_session/policy.py:1291-1320 | no block of any call takes over a held claim: it stays, or ends as unknown or with an outcome |
| ReconcilerTheorems.NotNeededIsReopened | backend/app/focus_session/policy.py:1291-1320 | a concrete admission that reopens a `not_needed` receipt |
| CommandReconciler.SessionCommandReconciler.Write | backend/app/focus_session/command_reconciler.py:256-322 | terminal receipts and journaled writes are shown as they are; a refused write changes no receipt; otherwise exactly the new row |
| CommandReconciler.SessionCommandReconciler.Admissible | backend/app/focus_session/policy.py:2219-2305 | allowed if and only if the command is known, an existing receipt is open and carries the expected claim, and the new one carries a claim exactly when it may |
| CommandReconciler.SessionCommandReconciler.ReconcileOne | backend/app/focus_session/command_reconciler.py:375-416 | executed if and only if the guard holds; an accepted outcome is written as succeeded, three rejections as a conflict, any other as failed, a timeout as a finished claim; every other answer under its cause |
| CommandReconciler.SessionCommandReconciler.Admit | backend/app/focus_session/policy.py:1154-1335 | the first request under a root id decides; all of its rows are written or none |
| CommandReconciler.SessionCommandReconciler.ReconcileCommands | backend/app/focus_session/command_reconciler.py:360-373 | admission, then the envelopes in order, stopping at the first failure, which is the answer |
| AdmissionContract.CloseDecisionIff | backend/app/focus_session/command_reconciler.py:122-156 | the decoder accepts exactly the three closed shapes and reads back what each means; anything else requires recovery |
| AdmissionContract.RequireExactIff | backend/app/focus_session/command_reconciler.py:105-119 | an admission is accepted exactly when it has the two fields, these ids in this order and one closed decision for each |
| FolderForest.AcyclicIff | backend/app/commands/entity.py:277-296 | every parent chain ends if and only if no folder is its own proper ancestor |
| FolderForest.ReparentIff | backend/app/commands/entity.py:277-296 | placing a folder below a parent keeps an acyclic relation acyclic if and only if the parent is neither the folder nor below it |
| FolderPolicy.RequireParentActive | backend/app/commands/entity.py:258-275 | no refusal if and only if there is no parent or it exists untrashed; a missing parent is `not_found`, a trashed one `cycle_detected` |
| FolderPolicy.RequireNoCycle | backend/app/commands/entity.py:277-296 | on any table it terminates, and accepts if and only if the new parent's chain ends and does not meet the folder |
| FolderPolicy.MoveRejectedIff | backend/app/commands/entity.py:277-296 | on an acyclic relation a move is rejected exactly when the new parent is the folder or one of its descendants |
| FolderPolicy.Compile | backend/app/commands/entity.py:233-250 | a create or update with any combination of fields is accepted exactly under the parent, cycle, existence and version checks; a create starts at version one, an update is one version later with the named columns set and the others kept; otherwise the first failing check names the error |
| FolderPolicy.ApplyOutcome | backend/app/commands/entity.py:233-250 | an accepted operation writes that row and no other, a refused one none |
| FolderPolicy.ForestPreserved | backend/app/commands/entity.py:233-250 | every sequence of creates and updates, whatever fields they combine, keeps the folders a forest |
| FolderPolicy.CreateKeepsAcyclicIff | backend/app/commands/entity.py:238-242 | an accepted create keeps the relation acyclic if and only if its parent is not already under the new id |
| FolderPolicy.CreateCanCloseCycle | backend/app/commands/entity.py:238-242 | the smallest table in which a create closes a cycle |
| FolderPolicy.UprightIff | backend/app/commands/entity.py:233-250 | an accepted operation keeps active folders below active parents if and only if the row it leaves is trashed and had no active child, or is active and has no trashed parent |
| FolderCascade.Descendants | backend/app/commands/entity.py:349-358 | the recursive search terminates wherever no folder in reach is below itself, and returns the specified list |
| FolderCascade.ChildrenOf | backend/app/commands/entity.py:334-347 | exactly the active children, each once |
| FolderCascade.FindsAll | backend/app/commands/entity.py:349-358 | the search lists every active descendant exactly once and nothing else |
| FolderCascade.SearchEndsIff | backend/app/commands/entity.py:349-358 | on any table the recursion ends if and only if no folder it reaches through active children is below itself |
| FolderCascade.ClosedCycleIsEndless | backend/app/commands/entity.py:349-358 | in the cycle that a create can close the recursion never ends |
| FolderDelete.CompileFolders | backend/app/commands/entity.py:386-433 | one plan per doomed folder in order, trashed, one version later, parent kept; contiguous ordinals |
| FolderDelete.CompileNotes | backend/app/commands/entity.py:444-508 | detaches exactly the untrashed notes of doomed folders, one version later and otherwise unchanged, with as many projections as they need; refused exactly when one of them has no Markdown |
| FolderDelete.CompileCascade | backend/app/commands/entity.py:360-559 | succeeds exactly when stated and otherwise names the first failing check; applying its plans leaves every touched row one version later with only its own column set and every other row unchanged; every row is written once |
| FolderDelete.CascadedRows | backend/app/commands/entity.py:360-559 | the tables after a cascade, row by row and column by column |
| FolderDelete.CascadeIsExact | backend/app/commands/entity.py:360-559 | afterwards no active folder has a trashed parent, no untrashed note and no quick note is left in the subtree, and the relation is unchanged |
| EffortSpec.OrderDoesNotMatter | backend/app/focus_session/effort_projection.py:176-293 | success and result, including the 2^53-1 bound, are invariant under any permutation of Sessions and attributions |
| EffortSpec.Conserved | backend/app/focus_session/effort_projection.py:176-293 | the efforts of all items add up to the seconds of all contributing Sessions |
| EffortSpec.SessionSoundIff | backend/app/focus_session/effort_projection.py:187-277 | what makes one Session's rows sound: one effective revision, and for a contributing Session a level-2 target in no other named project and seconds that are not negative |
| EffortProjection.WorkItemDepth | backend/app/focus_session/effort_projection.py:108-120 | the depth is two exactly for an item whose parent exists and is a root, also on cyclic chains |
| EffortProjection.ApplyOverrides | backend/app/focus_session/effort_projection.py:146-174 | replaced Sessions and replaced attribution sets; refused exactly on a malformed override |
| EffortProjection.CheckSession | backend/app/focus_session/effort_projection.py:187-277 | each fault if and only if its check is the first to fail, or the target the Session is charged to |
| EffortProjection.Fold | backend/app/focus_session/effort_projection.py:176-293 | succeeds if and only if the rows are sound, and returns the declarative sum of every charged item; otherwise the fault of the first Session that fails a check or takes a sum over 2^53-1 |
| EffortProjection.ComputeEffortMap | backend/app/focus_session/effort_projection.py:123-293 | the same with overrides applied, and a malformed override before everything else |
| EffortOverrides.OverridesArePostState | backend/app/focus_session/effort_projection.py:146-174 | computing with well-keyed overrides is computing over any listing of the committed tables |
| EffortOverrides.CollectAffected | backend/app/focus_session/effort_projection.py:353-370 | exactly the existing items any revision of the Session names |
| EffortOverrides.CorrectionMovesOneSession | backend/app/focus_session/effort_projection.py:353-370 | a correction moves exactly that Session's seconds and leaves every item outside the collected ids and the new target unchanged |
| EnginePool.NextKeeps | backend/app/space_manager.py:129-220 | every step other than an eviction keeps the counting invariant |
| EnginePool.NextMoves | backend/app/space_manager.py:58-227 | what every step changes, column by column, and that it changes nothing else; a drain disposes exactly the identity's engines, once none of them is referenced |
| EnginePool.CountsAreExact | backend/app/space_manager.py:129-220 | over every interleaving a count is the number of handles still holding the entry, and a disposed engine has none |
| EnginePool.HandlesAreAlive | backend/app/space_manager.py:129-152 | an outstanding handle's engine is cached and was never disposed |
| EnginePool.DrainedStaysEmpty | backend/app/space_manager.py:161-207 | from a successful poll until the resume no cached entry carries the identity |
| EnginePool.RepeatedDrainReturns | backend/app/space_manager.py:161-171 | a repeated drain returns at once; the identity is free if the earlier poll completed |
| EnginePool.CancelledDrainReturnsBusy | backend/app/space_manager.py:161-185 | the run in which a repeated drain returns while the identity is referenced |
| EnginePool.RetryChangesNothing | backend/app/space_manager.py:212-220 | retrying a failed release gives no reference back twice |
| EnginePool.EvictionIff | backend/app/space_manager.py:222-227 | an eviction disposes an engine with outstanding handles exactly when the entry is referenced |
| SpaceManager.SpaceEngineManager.Acquire | backend/app/space_manager.py:129-152 | waits, mismatch, or a new handle on the cached or a new entry; exactly the pool step |
| SpaceManager.SpaceEngineManager.Release | backend/app/space_manager.py:58-65 | owner check, idempotence, and a reference given back exactly once however often a failing release is retried |
| SpaceManager.SpaceEngineManager.Poll | backend/app/space_manager.py:172-185 | done exactly when nothing of the identity is referenced, and then no cached entry carries it |
| SpaceManager.SpaceEngineManager.DrainIdentity | backend/app/space_manager.py:161-195 | whatever other tasks do between the polls, a quiet return leaves no cached entry of the identity |
| SpaceManager.SpaceEngineManager.ResumeIdentity | backend/app/space_manager.py:197-206 | allowed for the owner only, and then the identity is no longer draining |
| SlidingWindow.PruningForgetsNothing | backend/app/rate_limit.py:108-118 | a pruned deque gives the same recent admissions as the full history |
| SlidingWindow.WindowHoldsQuota | backend/app/rate_limit.py:108-153 | any half-open interval of one window holds at most the quota |
| SlidingWindow.RetryAfterIsExact | backend/app/rate_limit.py:143-150 | the announced delay is the least positive whole number of seconds after which the key is admitted |
| RateLimit.RateLimitMiddleware.Make | backend/app/rate_limit.py:32-52 | construction succeeds exactly for a positive client bound and a positive cleanup interval, with the three default limits when none are given |
| RateLimit.RateLimitMiddleware.PruneKey | backend/app/rate_limit.py:108-118 | the deque becomes the unexpired part of the history, and an expired key is dropped |
| RateLimit.RateLimitMiddleware.PeriodicCleanup | backend/app/rate_limit.py:120-125 | when due, every key holds exactly its unexpired admissions and none is kept without any |
| RateLimit.RateLimitMiddleware.Call | backend/app/rate_limit.py:127-153 | the decision is the one the full history makes; each outcome occurs if and only if its cause does; the tracked keys and the key's deque afterwards are exact |
| RateLimit.FirstUnderZeroQuota | backend/app/rate_limit.py:127-153 | the first request under a limit of zero raises instead of being rejected |
| RateLimit.RateLimitMiddleware.NeverTooMany | backend/app/rate_limit.py:127-153 | in every valid state any window of a key's admissions is within its quota |
| RateLimit.RateLimitMiddleware.RetryAfterHolds | backend/app/rate_limit.py:143-150 | the exact delay, for a key of the running limiter |
| FrontmatterText.SplitJoin | backend/app/file_system/frontmatter.py:71-85 | splitting undoes joining for parts free of the separator |
| FrontmatterText.JoinSplit | backend/app/file_system/frontmatter.py:107-115 | joining undoes splitting |
| FrontmatterSpec.ReadsBackIff | backend/app/file_system/frontmatter.py:173-188 | a value reads back from its printed form if and only if it is clean |
| FrontmatterSpec.LineReads | backend/app/file_system/frontmatter.py:134-142 | what a line sets: a key and value at the first colon and space, a null key at a final colon, otherwise nothing |
| FrontmatterSpec.FormsAre | backend/app/file_system/frontmatter.py:64-85 | the printed forms of every kind of value, and a whole block |
| FrontmatterSpec.RoundTripIff | backend/app/file_system/frontmatter.py:47-145 | extracting a wrap gives the body without leading newlines, and the metadata itself if and only if every key and value is clean |
| FrontmatterSpec.RewrapIff | backend/app/file_system/frontmatter.py:88-96 | re-wrapping equals wrapping the original if and only if the stripped content has no leading newline |
| FrontmatterSpec.EmptyMetaIsNotFrontmatter | backend/app/file_system/frontmatter.py:88-96 | empty metadata is not recognised again |
| Frontmatter.SortKeys | backend/app/file_system/frontmatter.py:65-67 | the keys in canonical, then textual order, each as often as given |
| Frontmatter.BeforeIff | backend/app/file_system/frontmatter.py:65-67 | the key order: seven named keys first, then the text decides |
| Frontmatter.OnePrintOrder | backend/app/file_system/frontmatter.py:65-67 | the printing order of a key set is unique, so the printed text depends on the metadata alone |
| Frontmatter.SerializeFrontmatter | backend/app/file_system/frontmatter.py:47-85 | prints the specified block over the sorted keys |
| Frontmatter.CheckFrontmatter | backend/app/file_system/frontmatter.py:148-170 | the scan finds a block exactly when a closing delimiter follows a mapping line |
| Frontmatter.Stripped | backend/app/file_system/frontmatter.py:99-115 | the body after the block, or the content unchanged |
| Frontmatter.WrapWithFrontmatter | backend/app/file_system/frontmatter.py:88-96 | the sorted block, an empty line, and the stripped content |
| Frontmatter.ExtractFrontmatter | backend/app/file_system/frontmatter.py:118-145 | the parsed entries of the first block and the body after it |

## Left out

- The exclusivity of a Space's mutation lease is a hypothesis: a runtime handle that already holds a shared lease reuses it, and the coordinator model assumes one writer per Space between a child's decision and its receipt.
- Root operation ids that look like derived child ids, receipt ids or envelope ids of another command; the namespaces are taken as disjoint.
- Hashing and id derivation are free constructors; canonical JSON and SHA-256 are not modelled.
- Timestamps, lease expiry of the locator (except the inspector's expiry check) and the views returned to callers, including the response descriptor and its hash on a replay.
- `end` beyond its Meta transactions.
- The mutation unit of work and the FocusSession policy are contracts: apply, reject, raise or leave an inconclusive journal row; an unfinished or applied row has passed the policy's gate because compilation precedes the journal entry.
- CoordinatorConvergence.Converges: assumes that the unit of work accepts both children and that no other command moves between the attempts, as the promise is stated; `RestartConvergesIff` says what another clock reading does, `CompletableIff` when a conflict can still be completed after other commands have moved.
- CoordinatorCompletable.CompletableIff: the continuation it finds may reset Session rows, issue a new command and have unfinished mutations recovered as applied; it is about the coordinator's rows, not about what a Space will accept.
- Coordinator.ActiveSessionCoordinator.TouchLocator: the Space mutation that some kinds of touch run after their commit is not modelled.
- RecoveryWriter.TransferredIsRecoverable: takes nonempty ASCII identities and a payload without identity keys as hypotheses, and for a conflict that the command named its pair's active Session; a reader rejects other rows by design.
- ReconcilerTheorems.ReplayIsGuarded: reconciling one envelope is one step, which may die after the execution. Two overlapping calls of the same root can both pass the check before either records; only the receipt policy and the task journal guard that window.
- SpaceManager.SpaceEngineManager.DrainIdentity: engine entries and handles are addressed by ids instead of object references, and the tasks acting between two polls are given as a list.
- `get_session`'s eviction, `dispose` and `dispose_all` are the single `Evict` step; the counting theorems exclude it and `EvictionIff` says what it breaks.
- FolderDelete.CompileCascade: the version check and the number of projections a note needs are parameters, synchronisation events and index blobs are not modelled, and `_compile_hard_purge` is not part of this model.
- `EntityCommand`, `verify_all` and the effort repair service only build requests around the modelled functions.
- RateLimit.RateLimitMiddleware.Call: readings of the monotonic clock are taken as non-decreasing in lock order and times are exact reals; proxy and address parsing are parameters.
- FrontmatterSpec.RoundTripIff: numbers and other values printed with `str()` are not modelled, and metadata whose keys or list items contain newlines is outside the statement.
- RecoveryEvidence.AsciiText: `str()` of a value that is not a string is never taken for an identity column.
- SQL sessions, HTTP, settings, logging, migrations and the wire projections.
