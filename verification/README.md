# Verified model of the SSH Cluster API provider

The provider turns existing machines into Kubernetes nodes over SSH. An SSHMachine claims an SSHHost, bootstraps
it, may reboot it, cleans it when it is deleted, and gives it back. Every step can be interrupted by a crash, a lost
API reply or a broken SSH session, so the code stores its intent before each side effect and reads receipts again
afterwards. This project models that protocol, its locks, and the rewriting of bootstrap data, and proves what the
code relies on, over all inputs and all interleavings.

`dafny verify dfyconfig.toml` checks everything.

## The host lifecycle

| file | content |
|---|---|
| `RemoteHost.dfy` | one remote machine: owner record, receipt, residue markers, flock, detached jobs, boots |
| `RebootLedger.dfy` | the stored reboot record and the history of intents and commands |
| `Protocol.dfy` | the whole system: API objects, remote machines, and every action that can be committed |
| `Invariants.dfy`, `Theorems.dfy` | what holds in every reachable state, and the guarantees over all behaviours |
| `Cluster.dfy` | the shared world as a class; every call lets others act first and may fail with or without effect |
| `Inventory.dfy`, `Operations.dfy`, `Reboots.dfy`, `Deletion.dfy`, `SshMachine.dfy` | the controller's own procedures, in the form of the source |

The proof has two levels. On the first, a state is a value and an action is one committed effect: an accepted API
write, an executed command, a step of a detached job, an edit by a user. The guard of a controller action says what
the code has established when it gets there, and the theorems hold for every sequence of actions. On the second,
the procedures of the controller are methods over the class `Cluster`, whose ghost fields record the history. Its
invariant says that the history is a behaviour of the first level, so a procedure that could perform any other
action would not verify. Between any two calls all other Machines, users and jobs act arbitrarily often, and each
call may be lost before or after it took effect. A crash is a run that performs no further call. As every procedure
starts from any reachable state, its contract covers the state left by a crash at any point of earlier runs.

`faults` counts the calls that did not go as asked: a failed request, a conflict, a lost reply, a broken connection, an
answer that cannot be used, a missing object. A claim, reboot or cleanup command that answers with another exit code
than 0 is not a fault. A statement about a fault-free run assumes that the counter did not move.

Every command names the endpoint that it is sent to and acts there; the procedures pass the endpoint of the binding
that the run works with.

Assumptions of the lifecycle model, all of them relied on by the code:

- Runs for one Machine do not overlap. Runs for different Machines interleave freely.
- A failed request or foreground command has taken effect, or never will, when the failure is raised. Only detached
  jobs act later.
- The patch that a handler stages is applied or dropped before the next run for that object, and only to that object.
- Removing `/var/lib/capi-provider-ssh` is one step.
- UIDs, holder names and boot IDs are fresh, and the clock is shared. Boot IDs are only compared for equality, so
  they are numbered by boot.
- Users may do anything to the objects except writing claims, host phases and status.
- Objects live in one namespace, and a claim is identified by the UID in it; the name, namespace and kind that the
  code also compares are those of that UID. An object that is removed stays in the model as not alive.
- An empty string in an optional field of a spec counts as an absent field.

Two methods choose freely where the code asks something outside the model: how often a bootstrap is polled before its
deadline (once at least), and what the clock shows. Whether the object has a CAPI owner, a well-formed configuration
and usable bootstrap data is a parameter of a reconcile run, and any value of it may occur.

## Locks, executor, rewriting

| file | content |
|---|---|
| `HostLease.dfy` | the renewed Lease of one host |
| `AnnotationLock.dfy` | the expiring lock in an annotation, including its textual value |
| `LockRegistry.dfy` | one asyncio lock per Machine, looked up and dropped while tasks wait, are cancelled and leave |
| `ApiExecutor.dfy` | the bounded executor that outlasts the cancellation of its callers |
| `Kubeadm.dfy`, `Heredoc.dfy`, `Bootstrap.dfy`, `CloudConfig.dfy` | kubeadm arguments, heredoc rewriting, both together, and cloud-config rendering |
| `Conditions.dfy`, `Version.dfy` | condition merging over histories, and the version encoder with its decoder |
| `Texts.dfy`, `CandidateOrder.dfy`, `Wrappers.dfy` | text, sorting and option types shared by the others |
| `Witnesses.dfy` | concrete runs and inputs for what turned out not to hold |

`asyncio.Lock` and `asyncio.Semaphore` are modelled as CPython 3.13 implements them. All processes that use the
annotation lock share one lifetime setting. `Heredoc` is stated for any recogniser of heredoc starts and any patch
of a body; `ParseStart` is the recogniser in use, and `Bootstrap` instantiates the patch. White space and digits are
the ASCII ones, and the newline is the only line separator.

## What turned out not to hold

Each of these has an exact condition or a concrete run in the model.

- Consecutive reboot commands may carry the same `requestedAt` (`Witnesses.RepeatedRequest`). Consecutive *stored
  intents* never do, but an intent can be stored and given up before its command leaves, and then an earlier request
  may be sent again; only then (`Theorems.RebootRequestsDiffer`). The exact condition stands where a new intent may be
  stored: its command is sure to carry another request than the last command if and only if the stored record asks for
  what that last command asked for (`RebootLedger.NextCommandDiffers`). Of the stored phases only Failed tells that
  much (`RebootLedger.OnlyFailedTells`).
- Deletion does not always find a claim whose allocation was never stored (`Witnesses.StrandedClaim`). A run that
  finishes gives it back if and only if the spec still names a host or a selector; a legacy Machine, and one whose spec
  names another host than the claimed one, is blocked instead (`Deletion.DeleteUnowned`).
- A cancelled API call does not always end with its cancellation: a function that raises something other than an
  `Exception` wins over a cancellation that was put off (`ApiExecutor.APIExecutor.ResumeRunning`,
  `ApiExecutor.LostCancellation`).
- The heredoc rewrite drops an empty last line of a body whose document was seen, even if the document was left alone
  (`Heredoc.UnchangedBody`, `Witnesses.DroppedBlankLine`), and repeating it is safe only if no rewritten body contains
  its own terminator (`Heredoc.FoundAgain`, `Witnesses.SelfTerminated`).
- An owner or permissions text with a newline is accepted, and quoting keeps the newline. If one of its lines looks
  like a heredoc start, a reader that goes through the rendered script line by line, as the heredoc rewriter does,
  takes what follows for a body and does not find later files (`Witnesses.HiddenFile`); otherwise nothing is disturbed
  (`CloudConfig.OpensNothingExactly`).
- The interruption receipt 123 is not written atomically: a kill in between leaves an empty receipt, which every
  observer then refuses (`RemoteHost.ReceiptIsFinal`, `Witnesses.TornReceipt`).
- `write_reboot` stages the dictionary that the caller updates afterwards, so the staged patch can show an answer that
  was never stored (`Witnesses.UnsavedAnswer`). That is harmless: it is the answer to the stored intent
  (`Reboots.SendReboot`, `SshMachine.StagedIsPermitted`).

## Model

| member | source | states |
|---|---|---|
| RemoteHost.OkPreserved | python/capi_provider_ssh/operations.py:142-204 | every step of the claim, job, cleanup and boot scripts keeps the host invariant: at most one payload start per owner record, a receipt other than 123 is the exit code of that start, and the job inside the flock belongs to the owner |
| RemoteHost.ReceiptIsFinal | python/capi_provider_ssh/operations.py:185-193 | while the owner record stays, a written receipt never changes, and one that was cut off in writing only ever becomes 123 |
| RemoteHost.OwnerChanges | python/capi_provider_ssh/operations.py:150-170 | the owner record changes only from absent to a UID on a host without residue, or away by the cleanup of that same UID, which leaves the host pristine |
| RemoteHost.StaleJobIsInert | python/capi_provider_ssh/operations.py:166-172 | a queued job whose UID is not the owner changes nothing when it gets the flock |
| RemoteHost.PayloadIsNeverSkipped | python/capi_provider_ssh/controllers/sshmachine.py:592-603 | the completion marker cannot make an owned job skip its payload, because only that payload could have made the marker |
| RemoteHost.CleanupLeavesPristine | python/capi_provider_ssh/operations.py:160-170 | a cleanup command that exits 0 leaves no owner record and none of the five markers, so the guard of any next claim admits it |
| RemoteHost.PayloadStartsAtMostOnce | python/capi_provider_ssh/operations.py:185-193 | for all runs of one host: between two payload starts the owner record was removed, whatever is queued, killed or rebooted |
| RemoteHost.ZeroReceiptHasCompletedRun | python/capi_provider_ssh/operations.py:190-193 | for all runs: a receipt 0 under an owner record comes from exactly one payload start, which ended with 0, while that owner record was there all the time |
| RebootLedger.OkPreserved | python/capi_provider_ssh/lifecycle.py:67-131 | neighbouring stored intents carry different requests, and no intent is followed by two commands |
| RebootLedger.NeighbouringCommandsDiffer | python/capi_provider_ssh/lifecycle.py:67-108 | commands of neighbouring intents carry different requests |
| RebootLedger.RepetitionNeedsAbandoned | python/capi_provider_ssh/lifecycle.py:67-131 | two consecutive commands carry the same request only if the intent stored right after the first of them was abandoned before its command left |
| RebootLedger.NextCommandDiffers | python/capi_provider_ssh/lifecycle.py:67-108 | where a new intent may be stored: over all runs from there to the command of that intent, that command carries another request than the last one sent if and only if the stored record asks for what that last one asked for; otherwise a run that repeats it exists |
| RebootLedger.OnlyFailedTells | python/capi_provider_ssh/lifecycle.py:67-131 | what the stored phase alone tells, over all reachable ledgers in which a command has left: after Failed the next command is sure to carry another request, and Failed is the only such phase in which a new intent may be stored |
| Witnesses.RepeatedRequest | python/capi_provider_ssh/lifecycle.py:98-131 | a behaviour of the whole system, with a bootstrapped and provisioned Machine, in which two consecutive reboot commands carry the same request through an abandoned intent |
| Witnesses.UnsavedAnswer | python/capi_provider_ssh/lifecycle.py:50-52 | a behaviour after which the staged record is an answer that is not stored |
| Witnesses.TornReceipt | python/capi_provider_ssh/operations.py:185-189 | a run of one host that ends with an empty receipt, which no observation can read and no later job changes |
| Invariants.InvPreserved | python/capi_provider_ssh/lifecycle.py:195-346 | every action of every Machine, user, host and job keeps the invariant that ties allocation, ownership, receipt, claims, owner records and queued jobs together |
| Invariants.CommandOnRemote | python/capi_provider_ssh/operations.py:142-172 | a fenced command changes the owner record only by its own claim or cleanup, queues jobs of its own UID only, and a cleanup with exit code 0 removes the record |
| Theorems.InvAlways | python/capi_provider_ssh/lifecycle.py:195-346 | the invariant holds in every state of every behaviour |
| Theorems.ClaimChanges | python/capi_provider_ssh/inventory.py:75-91 | a claim goes only from empty to a UID by that UID, or from a UID to empty by that UID |
| Theorems.OneHostPerMachine | python/capi_provider_ssh/inventory.py:117-152 | no UID ever holds two hosts, and no two UIDs the same one |
| Theorems.ClaimIsKept | python/capi_provider_ssh/lifecycle.py:230-253 | an allocated host that exists carries the claim until cleanup success is stored |
| Theorems.AllocationIsFinal | python/capi_provider_ssh/inventory.py:155-226 | a stored allocation keeps machine UID, endpoint and host for all later time, under any edits |
| Theorems.CommandsGoToAllocation | python/capi_provider_ssh/controllers/sshmachine.py:1226-1237 | every bootstrap, reboot and cleanup command of a UID is sent to the endpoint of its allocation, as stored then and ever after, and acts on no other endpoint |
| Theorems.ReceiptIsDurable | python/capi_provider_ssh/lifecycle.py:147-168 | after cleanup success is stored, nothing else is stored over it and no cleanup command is sent |
| Theorems.NothingWasSent | python/capi_provider_ssh/lifecycle.py:230-254 | without stored ownership no command was ever sent |
| Theorems.CleanupHappened | python/capi_provider_ssh/lifecycle.py:299-324 | the recorded cleanup success is a cleanup command of that UID that exited 0 at its target |
| Theorems.CleanedUidIsInert | python/capi_provider_ssh/operations.py:150-172 | after its successful cleanup a UID owns no host, and its leftover jobs change nothing |
| Theorems.HostHandoff | python/capi_provider_ssh/lifecycle.py:299-346 | when a claim is cleared, either no command of the UID was ever sent, or its cleanup exited 0 at the allocated target and left what the next claim demands, and nothing of that UID can act later |
| Theorems.SeenSuccessIsReal | python/capi_provider_ssh/operations.py:195-215 | a success that the controller saw is one payload start that ended with 0 under the owner record of the UID at the allocated target |
| Theorems.BootstrapAtMostOnce | python/capi_provider_ssh/operations.py:178-193 | over all behaviours of the whole system: between two payload starts on an endpoint its owner record was removed |
| Theorems.ProvisionedMeansBootstrapped | python/capi_provider_ssh/controllers/sshmachine.py:1632-1649 | a Machine not created as provisioned is stored as provisioned only after a receipt 0 was seen |
| Theorems.RebootDiscipline | python/capi_provider_ssh/lifecycle.py:67-131 | in every reachable state: neighbouring intents differ, no intent has two commands, and Succeeded names a boot later than the one read before the command |
| Theorems.RebootSteps | python/capi_provider_ssh/lifecycle.py:274-281 | a reboot command leaves only for the intent stored last; an intent is stored only over a settled or given-up record for another request; no cleanup command is sent while a reboot is open |
| Theorems.RebootsAreSeparated | python/capi_provider_ssh/lifecycle.py:94-108 | between two reboot commands a new intent was stored after the record before it was Succeeded, Failed or Unknown |
| Theorems.RebootRequestsDiffer | python/capi_provider_ssh/lifecycle.py:55-131 | over all behaviours consecutive reboot commands carry different requests unless an intent stored between them was abandoned before its command left |
| Cluster.OthersStep | python/tests/fake_api.py:27-126 | an action of anybody else leaves the records and claims of a Machine alone, moves versions whenever it moves content, and never revives an object |
| Cluster.Cluster.PatchMachine | python/tests/fake_api.py:59-126 | a patch takes effect only on the version that was read; a lost reply does not tell |
| Cluster.Cluster.PatchHost | python/capi_provider_ssh/inventory.py:44-57 | the same for SSHHost objects, with UID and version of the object that was read |
| Cluster.Cluster.RunClaimOwner | python/capi_provider_ssh/operations.py:150-172 | the claim command: exit 0 means the owner record names this UID, and any exit code is the one of the guard on that host |
| Cluster.Cluster.RunObserve | python/capi_provider_ssh/operations.py:195-217 | the observation: a code is reported only if the receipt under the own owner record says it |
| Cluster.Cluster.RunClean | python/capi_provider_ssh/lifecycle.py:303-311 | the cleanup command: its exit code is the one of its script on that host, and 0 means that the history records a successful cleanup |
| Inventory.PersistMachineStatus | python/capi_provider_ssh/contracts.py:81-107 | the fenced read-then-patch: it reports success exactly if the write was stored as asked, and otherwise stored it or nothing |
| Inventory.SetHostPhase | python/capi_provider_ssh/inventory.py:60-72 | writes the phase of a host that this UID holds, and refuses otherwise |
| Inventory.ReleaseHost | python/capi_provider_ssh/inventory.py:75-91 | needs the stored receipt; marks the host available and clears the claim last, or finds it cleared; without faults it succeeds unless another UID has the host |
| Inventory.RecoverUnstartedClaim | python/capi_provider_ssh/inventory.py:94-114 | finds the claim of this UID and no other host; an empty answer means that the UID holds nothing |
| Inventory.SelectHost | python/capi_provider_ssh/inventory.py:117-152 | finds its own claim again whatever became of labels or health and makes no second one; a new claim goes to the first eligible host past those that had changed since they were listed; without faults one is made if and only if some listed host is eligible |
| Inventory.TryCandidates | python/capi_provider_ssh/inventory.py:131-152 | tries eligible candidates in order; each one skipped was a conflict over a host that had changed since it was listed; it ends with a claim, with one error, or with no eligible host left |
| Inventory.RefreshBinding | python/capi_provider_ssh/inventory.py:160-187 | without a fault an allocation is used if and only if spec and host still agree with it, the claim is its own and the host is neither quarantined nor cleaning; only credentials are renewed |
| Inventory.BindMachine | python/capi_provider_ssh/inventory.py:155-233 | stores the target before it is used; after a crash between claim and allocation the next bind returns the same host; without faults a stored allocation fails only if it is not usable, and a first binding only if the address is unusable, the claimed host is gone or withheld, no claim may be made, or no listed host is eligible |
| CandidateOrder.SortCandidates | python/capi_provider_ssh/inventory.py:131-131 | the candidates are all listed hosts, ready ones first, then by name |
| Operations.EnsureBootstrapOwnership | python/capi_provider_ssh/controllers/sshmachine.py:1226-1237 | ownership is stored before the claim command is sent, and success means that the host names this UID as owner |
| Operations.ClaimRemote | python/capi_provider_ssh/controllers/sshmachine.py:1231-1237 | without a fault the claim command succeeds, or it answered 78 and the host was quarantined for good, or it answered 1 because the host was busy |
| Operations.DurableBootstrap | python/capi_provider_ssh/operations.py:175-220 | a result is the receipt of the own owner record after a job was submitted to that endpoint; result 0 means one payload start that ended with 0; without a fault a job was submitted and there is a result, unless the last look before the deadline found no receipt |
| Operations.PrepareBootstrap | python/capi_provider_ssh/controllers/sshmachine.py:1610-1639 | submits no job; when it is through, ownership is stored for the target of the binding and the object has just been found alive, not paused and not being deleted; without a fault it is through unless the object was found paused or being deleted, or the claim command of this run answered 78 (with the host quarantined) or 1 |
| Operations.BootstrapMachine | python/capi_provider_ssh/controllers/sshmachine.py:1610-1713 | a job is submitted only after the object was found alive, not paused and not being deleted and with ownership stored; provisioned is staged as true only after a seen success of a job of this run; without a fault it is staged as true, or as false after a receipt other than 0 with the host quarantined for it, or nothing is staged because the object was paused or being deleted, the claim was refused or busy, or there was no receipt before the deadline |
| Reboots.WriteReboot | python/capi_provider_ssh/lifecycle.py:50-52 | the record is staged exactly if it was stored |
| Reboots.SendReboot | python/capi_provider_ssh/lifecycle.py:113-131 | one command for the stored intent; the staged record is the stored one or the answer that could not be stored |
| Reboots.ClearMeansMayIntend | python/capi_provider_ssh/lifecycle.py:67-98 | the checks before a new intent pass exactly if the stored record is settled or given up for another request and its boot is still the present one |
| Reboots.ActOnBoot | python/capi_provider_ssh/lifecycle.py:78-131 | with the boot known, a new boot is stored as success, an expired request as unknown, a clear one is submitted, and otherwise nothing moves; without a fault the run ends so unless it has to wait |
| Reboots.ReconcileReboot | python/capi_provider_ssh/lifecycle.py:55-131 | without a fault a run reads a boot under its fence during the run and does what this boot calls for, unless it is idle, paused or its allocation is not usable; it adds at most one intent and one command, and none while it only observes |
| Deletion.RecordCleanup | python/capi_provider_ssh/lifecycle.py:147-168 | stores the receipt through the fenced write |
| Deletion.CleanUnderLease | python/capi_provider_ssh/lifecycle.py:296-324 | the guarded part: stored success comes from a cleanup command of this call that exited 0 at that endpoint, a rejection from one that exited with that other code; without faults it ends in one of them or in a pause |
| Deletion.AfterFailure | python/capi_provider_ssh/lifecycle.py:325-345 | the exception handler reads the object again: a stored success is kept, otherwise the host is quarantined and Failed stored |
| Deletion.ReleaseCleanedHost | python/capi_provider_ssh/lifecycle.py:171-192 | a failed release leaves the receipt alone and is retried |
| Deletion.CleanAllocated | python/capi_provider_ssh/lifecycle.py:282-346 | from the Cleaning phase to the release: finished, or a command that exited otherwise, or a pause, each with what explains it, and failures are stored with the host quarantined; without faults it never ends in a mere retry |
| Deletion.RecoverAllocation | python/capi_provider_ssh/lifecycle.py:232-237 | the claim of a crash between claim and allocation becomes the allocation; it is refused only if the spec names another host |
| Deletion.DeleteUnowned | python/capi_provider_ssh/lifecycle.py:230-254 | without ownership nothing is sent; a run that finishes gives a claim without allocation back if and only if the spec still names a pool; it is blocked only for a legacy host, which it quarantines, or if the spec names a host that is not the claimed one |
| Deletion.DeleteMachine | python/capi_provider_ssh/lifecycle.py:195-346 | delete recovery: from every reachable state a run without faults ends with the receipt stored and the claim cleared, unless the Machine is paused, a reboot is open and the boot that this run read, no older than its start, does not settle it, a cleanup command of this run exited with another code, an operator is needed, or another UID already has the released host; each end is explained by what happened in the run |
| Deletion.RecoveryBefore | python/capi_provider_ssh/lifecycle.py:195-346 | what explains the end of a run explains it also for a run that began earlier |
| Witnesses.ClaimWithoutAllocation | python/capi_provider_ssh/inventory.py:117-152 | the state of a crash between claim and allocation is reachable |
| Witnesses.StrandedClaim | python/capi_provider_ssh/lifecycle.py:232-254 | a run in which deletion finishes and the claim stays, because the spec was changed to name no pool in between |
| SshMachine.ReconcileImpl | python/capi_provider_ssh/controllers/sshmachine.py:1240-1835 | a reconcile run keeps every claim, moves no stored record but allocation and ownership, and stages success only if it was seen; without a fault it ends as its branches say: paused or being deleted, without owner, with a bad configuration, with a reason why there is no usable binding, already provisioned, dry run or no bootstrap data, or as the bootstrap ended |
| SshMachine.Handle | python/capi_provider_ssh/controllers/sshmachine.py:1840-1908 | one handler run on the live object, from any reachable state: a delete run ends as its recovery contract says about the object that was read; any other keeps the claims, and without a fault ends as its reconcile contract says, followed, if that went well, by a reboot run that acted on the boot it read; with what it leaves staged |
| SshMachine.StagedIsPermitted | python/capi_provider_ssh/lifecycle.py:50-52 | applying a staged reboot record is a permitted write that stores just that record and no new intent |
| SshMachine.ApplyStaged | python/capi_provider_ssh/lifecycle.py:147-168 | the staged patch takes back neither receipt, allocation, ownership nor history |
| SshMachine.Serve | python/capi_provider_ssh/controllers/sshmachine.py:1840-1908 | any number of runs, each with its staged patch, among all other actors: the history is a behaviour of the transition system |
| HostLease.Exclusion | python/capi_provider_ssh/operations.py:40-97 | after a successful acquire or renew stamped t, the acquire of another holder is accepted only at t + 60 or later unless the first released before |
| HostLease.HolderChanges | python/capi_provider_ssh/operations.py:79-97 | renewals and releases touch only the record of their own holder; a holder is replaced only after its own release or 60 seconds without renewal |
| HostLease.RenewalProvesHold | python/capi_provider_ssh/operations.py:79-89 | an accepted renewal proves that nobody else acquired since the holder did |
| HostLease.HostLease.Heartbeats | python/capi_provider_ssh/operations.py:112-128 | of the heartbeats that fall due each accepted one is a renewal of this holder, nobody else acquired up to the last one, and the task is lost exactly if one was not accepted; without a fault that is only because the Lease has another holder by then |
| HostLease.HostLease.Hold | python/capi_provider_ssh/operations.py:100-139 | acquire, heartbeats, release: kept exactly if every heartbeat was accepted; up to the last accepted one nobody else acquired, after it this holder renews no more; without a fault it is not entered only because somebody held the Lease, lost only to another that took it over 60 seconds after the last renewal, and not held at the end |
| HostLease.HostLease.Acquire | python/capi_provider_ssh/operations.py:40-77 | under any interleaving at most one write, of its own name with the time noted first; false means no write, and that the Lease was held in some state since the start or was written by another meanwhile |
| HostLease.HostLease.Renew | python/capi_provider_ssh/operations.py:79-85 | the same for renewal, stamped after the read; a record of another holder is left alone |
| HostLease.HostLease.Release | python/capi_provider_ssh/operations.py:91-97 | clears its own name and no other |
| AnnotationLock.RoundTrip | python/capi_provider_ssh/controllers/sshmachine.py:1022-1036 | reading a printed value gives back holder and expiry for every nonempty holder, also one with the separator in it; an empty holder reads as no lock |
| AnnotationLock.Exclusion | python/capi_provider_ssh/controllers/sshmachine.py:1039-1096 | after an acquire until e, another process acquires only at e or later unless the first released before |
| AnnotationLock.ReleaseIsOwn | python/capi_provider_ssh/controllers/sshmachine.py:1099-1159 | a value disappears only by its own release or by an acquire after its expiry |
| AnnotationLock.AcquireLock | python/capi_provider_ssh/controllers/sshmachine.py:1039-1096 | five attempts by compare-and-swap; true means that the stored value is its own until the stamp plus the lifetime; false that nothing was written and another holder had it in some state since the start, the object is gone, or five newer versions came in between |
| AnnotationLock.ReleaseLock | python/capi_provider_ssh/controllers/sshmachine.py:1099-1159 | five attempts; true means that the object is gone or names nobody; false that nothing was written and the value named another holder in some state since the start, or five newer versions came in between |
| LockRegistry.LockRegistry.AtMostOneInside | python/capi_provider_ssh/controllers/sshmachine.py:992-1019 | of all tasks that took a lock object of a key and have not released it, there is at most one, however many lock objects the key has had |
| LockRegistry.LockRegistry.AllShareOneLock | python/capi_provider_ssh/controllers/sshmachine.py:996-1002 | who is inside and who waits for a key share the registered lock |
| LockRegistry.LockRegistry.EntryIffUsed | python/capi_provider_ssh/controllers/sshmachine.py:1005-1019 | an entry exists exactly while somebody is inside or waits |
| LockRegistry.LockRegistry.NoLostWakeUp | python/capi_provider_ssh/controllers/sshmachine.py:1846-1847 | while nobody is inside and somebody waits, the head of the queue is about to run |
| LockRegistry.LockRegistry.Enter | python/capi_provider_ssh/controllers/sshmachine.py:1843-1847 | look-up and arrival without a suspension in between: on the registered lock of the key or a new one, the task gets inside exactly if the lock is free, then nobody was inside, and it joins those inside; otherwise it only queues |
| LockRegistry.LockRegistry.Resume | python/capi_provider_ssh/controllers/sshmachine.py:1846-1908 | a resumed waiter gets inside exactly if it was woken and not cancelled, and then nobody was inside; otherwise it passes the wake-up on and drops an unused entry |
| LockRegistry.LockRegistry.Leave | python/capi_provider_ssh/controllers/sshmachine.py:1905-1908 | the task that leaves was alone inside; leaving wakes the next waiter and drops the entry exactly if the lock is unused |
| LockRegistry.LockRegistry.Cancel | python/capi_provider_ssh/controllers/sshmachine.py:1846-1847 | cancelling a waiter keeps every guarantee |
| ApiExecutor.APIExecutor.Bounded | python/capi_provider_ssh/api_io.py:38-47 | submitted, unfinished functions never exceed the worker count |
| ApiExecutor.APIExecutor.AbandonedNeverStarts | python/capi_provider_ssh/api_io.py:43-46 | a call that was cancelled while it queued never submits its function |
| ApiExecutor.APIExecutor.Start | python/capi_provider_ssh/api_io.py:43-48 | a call submits at once exactly if a slot is free and nobody uncancelled waits |
| ApiExecutor.APIExecutor.ResumeQueued | python/capi_provider_ssh/api_io.py:46-48 | a resumed call submits exactly if it was not cancelled; a slot granted to a cancelled call goes back |
| ApiExecutor.APIExecutor.ResumeRunning | python/capi_provider_ssh/api_io.py:49-64 | a submitted call leaves, and frees its slot, exactly when its function has finished; cancelled, it leaves with the cancellation if and only if the function ended normally or with an Exception, or the cancellation is still pending |
| ApiExecutor.LostCancellation | python/capi_provider_ssh/api_io.py:50-61 | a schedule in which a cancelled call ends with a SystemExit of its function instead of its cancellation |
| Kubeadm.SetArgsMeets | python/capi_provider_ssh/controllers/sshmachine.py:297-317 | in both API shapes each wanted argument has its value exactly once, the others keep value, multiplicity and order, the rest of the section is untouched, a change is reported exactly if there is one, and a repetition changes nothing |
| Kubeadm.PatchDocMeets | python/capi_provider_ssh/controllers/sshmachine.py:320-402 | one document: wired, changed only where the patch puts things, untouched if of another kind, and settled |
| Kubeadm.PatchDocs | python/capi_provider_ssh/controllers/sshmachine.py:380-402 | the loop over the documents equals patching each; it is rejected exactly if one of them is; no change means the same documents |
| Kubeadm.Pipeline | python/capi_provider_ssh/controllers/sshmachine.py:297-402 | after provider-ID and external-etcd patching every document is wired for both, other documents are unchanged, and repeating either patch reports no change |
| Heredoc.SplitFlatten | python/capi_provider_ssh/controllers/sshmachine.py:812-857 | a script is its segments, one after the other |
| Heredoc.FlattenSplit | python/capi_provider_ssh/controllers/sshmachine.py:812-857 | segments are found again in their text if and only if they are well formed |
| Heredoc.RewriteLines | python/capi_provider_ssh/controllers/sshmachine.py:719-768 | the index loop equals splitting the script, rewriting the bodies of its terminated kubeadm heredocs and putting it together |
| Heredoc.InjectProviderId | python/capi_provider_ssh/controllers/sshmachine.py:812-857 | without a change the script comes back to the character |
| Heredoc.InjectExternalEtcd | python/capi_provider_ssh/controllers/sshmachine.py:719-768 | a script without a document to wire is rejected |
| Heredoc.OnlyBodies | python/capi_provider_ssh/controllers/sshmachine.py:832-848 | only bodies of terminated kubeadm YAML heredocs differ; nothing does if no document was seen |
| Heredoc.NothingSeen | python/capi_provider_ssh/controllers/sshmachine.py:812-857 | splitting, joining and the final newline give an unseen script back to the character |
| Heredoc.UnchangedBody | python/capi_provider_ssh/controllers/sshmachine.py:839-846 | a body whose document was seen and left alone is kept if and only if it does not end in an empty line |
| Witnesses.DroppedBlankLine | python/capi_provider_ssh/controllers/sshmachine.py:839-846 | such a body that loses its empty last line |
| Heredoc.FoundAgain | python/capi_provider_ssh/controllers/sshmachine.py:832-848 | the rewritten script has the rewritten segments if and only if no rewritten body contains its own terminator |
| Witnesses.SelfTerminated | python/capi_provider_ssh/controllers/sshmachine.py:832-848 | a script whose rewritten body contains its own terminator |
| Heredoc.RewriteTwice | python/capi_provider_ssh/controllers/sshmachine.py:812-857 | with that condition and a patch that settles, a second rewrite reports no change |
| Bootstrap.PatchedTextIsWired | python/capi_provider_ssh/controllers/sshmachine.py:372-402 | the text of a patched document loads as wired documents with nothing left to do |
| Bootstrap.InjectTwice | python/capi_provider_ssh/controllers/sshmachine.py:812-857 | document patches and heredoc rewriting together: the second injection is accepted and reports no change |
| CloudConfig.Render | python/capi_provider_ssh/controllers/sshmachine.py:532-577 | the rendering loops produce the text of all files and commands in order with one final newline, and reject exactly bad permissions or owners |
| CloudConfig.PathReadBack | python/capi_provider_ssh/controllers/sshmachine.py:706-716 | the path of a file is read back from its heredoc line if and only if it needs no quotes |
| CloudConfig.ContentReadBack | python/capi_provider_ssh/controllers/sshmachine.py:548-552 | the content of a file is read back whole if and only if no line of it strips to its own marker |
| CloudConfig.FilesRecovered | python/capi_provider_ssh/controllers/sshmachine.py:532-577 | under those conditions, and if no line written behind a content opens a heredoc, splitting the rendered text gives every path and content in entry order; permissions and owners may have any number of lines |
| CloudConfig.OpensNothingExactly | python/capi_provider_ssh/controllers/sshmachine.py:554-564 | what is written behind a content adds no file and hides none, whatever follows, if and only if none of its lines opens a heredoc |
| Witnesses.HiddenFile | python/capi_provider_ssh/controllers/sshmachine.py:558-564 | two accepted files of which the second is not found, because the owner of the first opens a heredoc on a line of its own |
| Conditions.MergeConditions | python/capi_provider_ssh/conditions.py:14-27 | the merge loop equals folding the updates over the indexed list |
| Conditions.History | python/capi_provider_ssh/conditions.py:14-27 | after any history each type occurs once, says what its last update says, and dates from the first event with a time since its status last changed; a time is empty only if all updates since then brought an empty one |
| Conditions.AbsentTypesKept | python/capi_provider_ssh/conditions.py:14-27 | types that no update mentions keep content and place |
| Conditions.PatchTwice | python/capi_provider_ssh/conditions.py:30-33 | two staged updates in one handler are one: nothing stored or staged before is lost, reordered or stamped anew |
| Conditions.PatchConditions | python/capi_provider_ssh/conditions.py:30-33 | the staged list is the merge over what is stored and staged |
| Version.Lossless | python/package_version.py:10-27 | up to a leading v the decoder gives back every accepted version from its output |
| Version.Injective | python/package_version.py:10-27 | two versions never share an output |
| Version.StableOutput | python/package_version.py:15-27 | an output looks stable if and only if the version has no prerelease label |
| Texts.JoinLines | python/capi_provider_ssh/controllers/sshmachine.py:812-857 | splitting and joining lines gives a text back, with its final newline |
| Texts.LinesJoin | python/capi_provider_ssh/controllers/sshmachine.py:839-846 | joining and splitting drops one empty last line and nothing else |

## Left out

- Kopf wiring, HTTP and TLS readiness, SSH transport, key parsing, logging, and the text of messages.
- The shell syntax of the generated scripts: their meaning is a step of the host model. The upload of the private
  script goes to a path of its own and is a call without effect here.
- In the lifecycle model taking, checking and giving back the Lease are calls that may fail: the Lease is modelled on
  its own in `HostLease.dfy`, and no lifecycle guarantee rests on it.
- Operations.PrepareBootstrap: the Lease is one of the calls that may fail, and does not appear in the contract.
- Operations.BootstrapMachine: the same; and a kubelet that is not ready counts as a call that did not go as asked.
- HostLease.HostLease.Hold: the body that runs beside the heartbeats and its cancellation by them are not modelled.
- A Machine lock that expires during a run, clock skew, API writes that are committed after their failure was raised,
  and several DNS names for one host.
- Deletion.DeleteMachine: delete recovery is stated without the case that another UID has claimed the released host
  before the old finalizer is gone; the run is then retried without end.
- Deletion.RecordCleanup: the conditions written together with the receipt are not part of the lifecycle state;
  merging conditions is modelled in `Conditions.dfy`.
- SshMachine.ReconcileImpl: the reasons why bootstrap data cannot be used (missing data, an invalid external etcd
  configuration, a bad format) are one parameter, as they all stage `provisioned` as false and change nothing else.
- Inventory.SelectHost: labels are a set of matching pairs, and a name stands for `namespace/name`.
- The staged `allocation`, `bootstrapOwnership` and connection fields repeat stored values and are not staged here.
- `initialization.provisioned` as a monotone flag: other branches reset it, so bootstrap claims rest on the receipt.
- Conditions.MergeConditions: fields other than the six of a condition are not modelled.
- AnnotationLock.RoundTrip: Python refuses to parse integers of more than 4300 digits; the model does not.
- Kubeadm.SetArgsMeets: the order of mapping keys is not modelled, as Python's equality ignores it; mapping keys are strings.
- Bootstrap.InjectTwice: the YAML engine is a pair of functions, and dumping documents that are not empty and loading the
  result without trailing newlines is assumed to give them back. A body that ends in an empty line and whose document is
  left alone is excluded, because the rewrite drops that line.
- Bootstrap.PatchedTextIsWired: rests on the same assumption about the engine.
- CloudConfig.Render: base64 decoding and the validation of the cloud-config happen before the model; negative and
  boolean permission values are not modelled.
- Heredoc.InjectExternalEtcd: the cloud-config variants of the two injectors, which patch `write_files` entries
  without any heredoc.
- The formatting of `CAPI_EXIT` output, diagnostic redaction and failure-phase guessing.
- The SSHCluster and SSHHost probe controllers, the namespace audit, CRDs, manifests, and the changelog, merge and
  packaging scripts other than the version encoder: mostly single-branch guards.
