# AntiFlock: a verified model

AntiFlock is a policy plane for end devices. A Core compiles protection profiles into signed plans,
keeps an audit chain and evaluates small watchdog programs; an Agent enforces plans through drivers,
journals every step so that a crash can be undone, and delivers telemetry from a durable queue. This
project models the parts that carry state across crashes and the parts where two pieces of code must
agree, and proves what they promise for all inputs and over all runs.

Each component has two layers. A specification layer describes every call as a function of the
state and of what the environment answers: driver replies, clock readings, and one fault per durable
write. A fault may refuse the write, kill the process before or after it, or let it take effect and
still report an error. Theorems about whole runs are proved on this layer. An object layer has the
classes, fields and loops of the program, and every method is proved to be the transition of the
specification layer.

| files | component |
|---|---|
| Common | optional and fallible values, and the faults of a durable write |
| DriverContract, DriverJournal, DriverReservation, DriverLifecycle | the crash-safe driver lifecycle and its three durable stores |
| DriverInvariant, DriverSafety, DriverClosing, DriverCorrespondence, DriverRecovery, DriverReversal, DriverProgress | what every run of it keeps, when it recovers, and that it gets anywhere |
| DriverObject | the lifecycle as an object |
| AuditChain, AuditProtocol, AuditService | the audit chain and its external anchor journal |
| NanoTokens, NanoGrammar, NanoParser, NanoEvaluate, NanoRunner | the Nano watchdog language |
| JsonPrescan | the strict prescan of capability manifests |
| QueueModel, QueueLoss, QueueObject | the durable telemetry queue, when it loses or blocks, and the loop that drains it |
| IdentitySetup | first-time installation of the deployment identity |
| PlanContract, PolicyCompiler | the enforcer's plan validator and the compiler whose plans it must accept |
| PlanExecution, PlanEnforcer | the execution of one plan and the replay store |
| DigestLayout, CapabilityDigest, DigestWriter | the length-prefixed digests of probes, manifests and tokens |

`dafny verify dfyconfig.toml` checks the whole project.

## Where the code does not keep a promise

Each of these is a proved statement about the model, with the exact condition where there is one.

- A process that dies between the release and the Finish of a live commit never recovers: recovery
  writes its own reason code, so its release conflicts with the recorded one. The same holds of a live
  rollback of an acknowledged apply, if and only if the driver answered with a receipt. Recovery is
  possible if and only if the in-flight reservation is not released with an ending recovery cannot
  repeat (`DriverRecovery.RecoverPossible`, `DriverRecovery.CrashInCommitSticks`,
  `DriverRecovery.CrashInRollbackSticks`, `DriverRecovery.StuckForever`, `DriverProgress.NewNodeCanStick`).
  Recovery's own COMMIT can be repeated, but only by a clock that reads the recorded time
  (`DriverRecovery.CrashInRecoveryWaits`).
- A live commit whose release takes effect and that is then told of a failure leaves the lifecycle
  failed, and a failed lifecycle permits Rollback. That rollback reverts the host and records so before
  its own release conflicts, so the host is reverted while the booking says COMMIT
  (`DriverReversal.RevertedAgainstCommit`, `DriverProgress.NewNodeCanRevertCommitted`).
  `DriverReversal.CommitLeavesItOpen` says exactly which commits lead there, and
  `DriverReversal.RollbackKeepsCommit` that a rollback of an acknowledged apply leaves a booking as
  COMMIT if and only if it was COMMIT before the call.
- Memory and journal correspond step for step throughout a run if and only if no call of it tears an
  approval, or the finish of a live close, that would have gone through
  (`DriverCorrespondence.CorrespondenceExactly`). A torn approval outside SIMULATED, for another plan or
  without a time, and a torn finish whose receipt or release was refused, do no harm. After a torn
  approval that landed every retry is refused; after a torn finish that landed nothing completes until a
  restart (`DriverCorrespondence.TornApproval`, `DriverCorrespondence.TornUntilRestart`).
- A genesis anchor that reached the file only in part is final (`AuditProtocol.BrokenForever`).
- Enqueue admits an event without a boot id; from then on a queue that has it first delivers nothing
  (`QueueLoss.BootlessEventBlocks`). A batch is refused if and only if the scan meets an event it
  cannot deliver before the batch is full (`QueueModel.BatchExact`).
- Acknowledgement removes by id, so two events that share an id can lose one of them
  (`QueueLoss.SharedIdIsLost`). A run loses nothing if and only if no round installs the
  acknowledgement of a batch that shares an id with an event outside it that is enqueued, still queued
  and not yet accepted (`QueueLoss.RunLosesNothingExactly`).
- The policy compiler validates profiles whose plans the enforcer rejects: mesh mode without exits,
  an unsafe policy id, unbounded or duplicate allowed destinations, control characters in lists
  (`PolicyCompiler.CompiledButRefused`, `PolicyCompiler.MeshProfilesAccepted`);
  `PolicyCompiler.CompiledPlansAreAccepted` is the exact condition.
- The digest layout is injective only below 4 GiB per field (`DigestLayout.LongFieldsCollide`); every
  validated value is far below that.

## Modelling decisions

- SHA-256 is a free constructor per hash domain, so it is injective and domain separated; the digest
  modules prove that the bytes fed to it deserve that. Where a hash is applied to an unbounded set of
  inputs (`CapabilityDigest.ManifestDigestIdentifies`) only collision freedom on the inputs at hand is
  required. A signature names its key and its content.
- Mutex sections are single steps, contexts and timeouts are errors of the call they bound, times are
  integers with 0 for the zero time, and file replacement is one step that may report an error after
  it took effect.
- History variables (what was granted, applied, verified, accepted, executed) are written by the
  transitions and read by no transition.
- An error of the driver's Apply, or a receipt it cannot bind, leaves the run unapplied, so a live
  rollback does not ask the driver to revert. That such an answer means no mutation is the driver's
  obligation and not part of the statements.

## Model

| member | source | states |
|---|---|---|
| `DriverSafety.ApplyAtMostOncePerPlan` | agent/driver/lifecycle.go:376-496 | Over every interleaving of calls, crashes and restarts of any number of lifecycles that share one reservation store: the driver is asked to apply a plan id at most once; each such call is preceded in its own run by a capture, a simulation, an approval for exactly that plan, revision, operation and target, a fresh reservation and a re-capture equal to the simulated state; granted plan revisions strictly increase and policy revisions never decrease; a booking is released as COMMIT only on a verification of that plan |
| `DriverSafety.EveryRunIsSafe` | agent/driver/lifecycle.go:376-496 | The safety invariant behind it is inductive: it holds after every sequence of calls from any state in which it holds, not only from empty stores |
| `DriverSafety.ArmedIsAuthorized` | agent/driver/lifecycle.go:441-496 | At the moment the driver is called, what the run has been through is exactly what authorizes that request, argument for argument |
| `DriverSafety.ReserveGrants` | agent/driver/lifecycle.go:404-435 | A reservation that is granted books the run's own plan id, which was not booked, raises the plan floor strictly and does not lower the policy floor; any other outcome leaves the store as it was |
| `DriverSafety.CommitShows` | agent/driver/lifecycle.go:598-611 | A booking that a live commit turns into COMMIT belongs to a plan whose host was verified against the receipted digest in the same run |
| `DriverSafety.RecoverEntryShows` | agent/driver/lifecycle.go:759-838 | A booking that recovery turns into COMMIT was confirmed by the driver against the digest and token of that entry |
| `DriverInvariant.PerformKeeps` | agent/driver/lifecycle.go:251-838 | Every call under every fault keeps the invariant that ties memory, journal and reservation store to the history of the run: at most one open entry, its records explained by what happened, its reservation booked |
| `DriverRecovery.RecoverSettles` | agent/driver/lifecycle.go:716-757 | From every durable state a run can leave behind: the exact condition for Recover to succeed, and that it then leaves nothing in flight, releases the named reservation as COMMIT if and only if the driver confirmed the host and as ROLLBACK otherwise, changes no other booking, and makes a second Recover report clean and change nothing |
| `DriverRecovery.RecoverPossible` | agent/driver/lifecycle.go:716-838 | Some driver, clock and store behaviour lets Recover succeed if and only if the in-flight reservation was not already released with an ending that recovery cannot repeat |
| `DriverRecovery.RecoveryRemembersItsRun` | agent/driver/lifecycle.go:764-806 | In every reachable world, an entry in flight is judged by the digest its own run predicted or was receipted with, and asks for the very ownership token Apply demanded, although the identity may have been begun and rolled back before and the journal compacted since |
| `DriverRecovery.EntryJudged` | agent/driver/lifecycle.go:759-838 | Recovery of one entry finishes exactly when the environment is able and the reservation is free for the ending it intends |
| `DriverClosing.CommitRunDone` | agent/driver/lifecycle.go:598-611 | The shared commit finishes exactly when receipt and release clear and the finish goes through, and then leaves the entry closed and the booking released as COMMIT with the digest of the commit receipt; the journal changes exactly when everything before the finish clears and the finish lands, whatever is reported |
| `DriverClosing.RollbackRunDone` | agent/driver/lifecycle.go:639-679 | The shared rollback finishes exactly when the driver, if it had been asked to apply, reverts or disowns, and release and finish go through; it then leaves the entry closed and the booking released as ROLLBACK; the journal changes exactly when everything before the finish clears and the finish lands |
| `DriverRecovery.CrashInCommitSticks` | agent/driver/lifecycle.go:598-611 | A process that dies between the release and the Finish of a live commit leaves a state from which Recover can never succeed, because recovery writes another reason code and the second release conflicts |
| `DriverRecovery.CrashInRollbackSticks` | agent/driver/lifecycle.go:639-679 | The same crash in a live rollback of an acknowledged apply leaves the node stuck if and only if the driver answered with a receipt; when it disowned the apply, recovery can still succeed |
| `DriverReversal.CommitLeavesItOpen` | agent/driver/lifecycle.go:598-611 | Exactly which commits leave the lifecycle active over a booking released as COMMIT: those whose release takes effect and that are then told of a failure, by a torn release or by a finish that is refused, torn or invalid |
| `DriverReversal.RevertedAgainstCommit` | agent/driver/lifecycle.go:617-679 | After such a commit the permitted rollback has the driver revert the host and appends the rollback receipt beside the commit receipt, and then is refused by a release that conflicts; the booking still says COMMIT and the lifecycle is failed again |
| `DriverReversal.RollbackKeepsCommit` | agent/driver/lifecycle.go:617-679 | A live rollback of an acknowledged apply leaves the booking as COMMIT if and only if it was COMMIT before the call, and then releases nothing and never succeeds, whatever the environment does |
| `DriverRecovery.CommitIsRepeatedAtItsTime` | agent/driver/lifecycle.go:825-829 | Where the in-flight reservation is already released as COMMIT, a Recover that succeeds had the host confirmed again and its clock read exactly the recorded time |
| `DriverRecovery.CrashInRecoveryWaits` | agent/driver/lifecycle.go:825-829 | After a crash between the COMMIT release and the Finish of a Recover, no Recover whose clock has moved on succeeds |
| `DriverRecovery.StuckStays` | agent/driver/lifecycle.go:273-298 | In such a state no call completes, whatever the environment does, and the state persists |
| `DriverRecovery.StuckForever` | agent/driver/lifecycle.go:716-838 | Over every run of every lifecycle that shares the store, the node neither recovers nor begins another plan |
| `DriverProgress.HealthyRunCommits` | agent/driver/lifecycle.go:273-611 | From every reachable resting state, a sensible plan above the floors on a healthy environment is carried through nine calls to COMMITTED, with nothing in flight and its booking released as COMMIT |
| `DriverProgress.CallAdvances` | agent/driver/lifecycle.go:273-611 | Each of the nine calls succeeds and enters the next state with exactly the facts it has learned |
| `DriverProgress.HealthyRunCanStick` | agent/driver/lifecycle.go:598-611 | The same run with one crash between release and Finish ends stuck |
| `DriverProgress.HealthyRunCanSplit` | agent/driver/lifecycle.go:376-398 | The same run with its approval, or the finish of its commit, torn reaches both calls that part memory from journal |
| `DriverProgress.NewNodeCanSplit` | agent/driver/lifecycle.go:376-398 | A concrete new node and plan that reach both |
| `DriverProgress.NewNodeCanRevertCommitted` | agent/driver/lifecycle.go:582-679 | A concrete new node, plan and refused finish after which the rollback reverts the host under a COMMIT booking |
| `DriverProgress.NewNodeCanStick` | agent/driver/lifecycle.go:598-611 | A concrete new node, plan and crash that end stuck |
| `DriverCorrespondence.CorrespondenceExactly` | agent/driver/lifecycle.go:251-298 | From empty journals, over every run: the state in memory and the one open journal record correspond step for step in every state of the run if and only if no call of the run splits them, that is, tears an approval or the finish of a live close that would have gone through; and then no further call, torn or not, is refused as active, inactive, out of order or for want of room |
| `DriverCorrespondence.RunMatchesExactly` | agent/driver/lifecycle.go:366-611 | The same equivalence from every sound state in which memory and journal match |
| `DriverCorrespondence.PerformMatched` | agent/driver/lifecycle.go:366-679 | From a matched state every call under every fault is taken in order, and leaves memory and journal matched if and only if it does not split them; what splits is stated on the state and the answers before the call |
| `DriverCorrespondence.JournalStaysSmall` | agent/driver/journal.go:196-199 | A journal owned by one lifecycle from the start never exceeds 1032 records, with or without torn writes |
| `DriverCorrespondence.TornApproval` | agent/driver/journal_file.go:262-296 | An approval whose write takes effect but reports an error breaks the correspondence, and every retry of it is refused as out of order |
| `DriverCorrespondence.TornRollback` | agent/driver/journal_file.go:262-296 | A rollback that would have succeeded but whose finish is torn leaves the lifecycle failed over an empty journal |
| `DriverCorrespondence.TornCommit` | agent/driver/journal_file.go:262-296 | A commit that would have succeeded but whose finish is torn leaves the lifecycle failed over an empty journal |
| `DriverCorrespondence.TornUntilRestart` | agent/driver/lifecycle.go:617-635 | Until the process restarts, such a lifecycle completes nothing: no step, rollback, recovery or new plan |
| `DriverJournal.AppendAgreesWithCheck` | agent/driver/journal.go:236-299 | Append accepts a record exactly when the load-time check accepts the extended sequence; what it leaves passes the check again, with exactly that entry opened, advanced or closed |
| `DriverJournal.CompactionKeepsOpenEntries` | agent/driver/journal.go:304-339 | Compaction keeps every record of every open entry in order and changes neither the open map nor the outcome of the check |
| `DriverJournal.CompactionKeepsWholeEntries` | agent/driver/journal.go:304-339 | An entry is kept whole or dropped whole |
| `DriverJournal.DropsOldestFirst` | agent/driver/journal.go:304-339 | What is dropped are the closed identities of a prefix, and no shorter prefix would have done |
| `DriverJournal.CompactionShrinks` | agent/driver/journal.go:304-339 | A journal above 1024 records is compacted to at most 512, or to open entries only |
| `DriverJournal.ListsIsUnique` | agent/driver/journal.go:341-360 | The order in which recovery visits in-flight entries is determined by the open map |
| `DriverJournal.JournalState.constructor` | agent/driver/journal.go:214-218 | A new journal holds nothing |
| `DriverJournal.JournalState.OpenEntries` | agent/driver/journal.go:220-232 | The map holds the latest record of exactly the identities begun and not finished |
| `DriverJournal.JournalState.CheckRecords` | agent/driver/journal.go:236-266 | Accepts exactly the sequences within the size limit in which every record was valid and admissible when written |
| `DriverJournal.JournalState.AppendRecord` | agent/driver/journal.go:268-299 | Appends and compacts on success; on refusal nothing changes and the reason is the first that applies |
| `DriverJournal.JournalState.CompactRecords` | agent/driver/journal.go:304-339 | The loop with its running counter is the compaction about which the lemmas above speak |
| `DriverJournal.JournalState.CountRecords` | agent/driver/journal.go:309-312 | Every identity is mapped to the number of its records |
| `DriverJournal.ChooseDropped` | agent/driver/journal.go:313-328 | The running counter is at every point the number of records that would be kept |
| `DriverJournal.KeepRecords` | agent/driver/journal.go:332-337 | Exactly the records of identities not dropped, in order |
| `DriverJournal.JournalState.InFlightEntries` | agent/driver/journal.go:341-360 | All open entries, each once, in ascending order of identity |
| `DriverReservation.ReserveExtends` | agent/driver/reservation.go:99-131 | A reservation books a plan id at most once and only strictly above the plan floor and not below the policy floor; nothing booked is forgotten or re-keyed |
| `DriverReservation.ReleaseExtends` | agent/driver/reservation.go:134-167 | A release records one ending for ever: a second succeeds if and only if it carries the same step and bytes, and no other booking changes |
| `DriverReservation.ReservationStore.constructor` | agent/driver/reservation.go:88-96 | A new store has the given floors and no bookings |
| `DriverReservation.ReservationStore.ReserveKey` | agent/driver/reservation.go:99-131 | The map and floor fields change by exactly the abstract reservation, with its error order |
| `DriverReservation.ReservationStore.ReleaseToken` | agent/driver/reservation.go:134-167 | The map changes by exactly the abstract release; an error changes nothing |
| `DriverReservation.ReceiptStore.constructor` | agent/driver/receipt.go:136-138 | A new log is empty |
| `DriverReservation.ReceiptStore.AppendLine` | agent/driver/receipt.go:141-160 | A valid receipt is appended once; a duplicate is tolerated by the lifecycle and stored once; an invalid one is refused |
| `DriverObject.Lifecycle.constructor` | agent/driver/lifecycle.go:215-232 | A new lifecycle is idle over the given stores |
| `DriverObject.Lifecycle.RequireState` | agent/driver/lifecycle.go:241-249 | Refuses without a run, then in any state but the expected one |
| `DriverObject.Lifecycle.BeginPlan` | agent/driver/lifecycle.go:273-298 | State, run, journal, stores and answer change by exactly the Begin transition the invariants are about |
| `DriverObject.Lifecycle.CaptureHost` | agent/driver/lifecycle.go:301-327 | Exactly the Capture transition, including failure on a snapshot without digest |
| `DriverObject.Lifecycle.SimulateOperation` | agent/driver/lifecycle.go:333-372 | Exactly the Simulate transition: the predicted after-digest is journalled before the state moves |
| `DriverObject.Lifecycle.BindApproval` | agent/driver/lifecycle.go:376-398 | Exactly the Approve transition: a refused write leaves the state as it was |
| `DriverObject.Lifecycle.ReservePlan` | agent/driver/lifecycle.go:404-435 | Exactly the Reserve transition: the store is written before the journal |
| `DriverObject.Lifecycle.ApplyPlan` | agent/driver/lifecycle.go:441-496 | Exactly the Apply transition: re-capture, drift check, APPLY record, driver call, receipt check, VERIFY record |
| `DriverObject.Lifecycle.ApplyUnchanged` | agent/driver/lifecycle.go:464-496 | From the APPLY record on: the driver is called only after that record is on file |
| `DriverObject.Lifecycle.CallDriver` | agent/driver/lifecycle.go:468-495 | The part from the driver call on: only an accepted receipt marks the run as applied |
| `DriverObject.Lifecycle.VerifyHost` | agent/driver/lifecycle.go:501-526 | Exactly the Verify transition |
| `DriverObject.Lifecycle.WriteLines` | agent/driver/lifecycle.go:569-574 | Both receipts, the second only after the first |
| `DriverObject.Lifecycle.RecordReceipts` | agent/driver/lifecycle.go:556-577 | Exactly the Record transition |
| `DriverObject.Lifecycle.CommitWith` | agent/driver/lifecycle.go:598-611 | Receipt, release, finish, in this order, stopping at the first failure |
| `DriverObject.Lifecycle.CommitPlan` | agent/driver/lifecycle.go:582-596 | Exactly the Commit transition |
| `DriverObject.Lifecycle.RevertWith` | agent/driver/lifecycle.go:642-669 | The driver is asked to revert only a run it acknowledged; unknown ownership counts as nothing to revert |
| `DriverObject.Lifecycle.RollbackWith` | agent/driver/lifecycle.go:639-679 | Revert, release, finish, in this order, stopping at the first failure |
| `DriverObject.Lifecycle.RollbackPlan` | agent/driver/lifecycle.go:617-635 | Exactly the Rollback transition |
| `DriverObject.Lifecycle.RecoverOne` | agent/driver/lifecycle.go:759-838 | Exactly the recovery of one entry |
| `DriverObject.Lifecycle.RecoverAll` | agent/driver/lifecycle.go:716-757 | Exactly the Recover transition |
| `DriverObject.Lifecycle.RecoverEach` | agent/driver/lifecycle.go:740-748 | The loop over the in-flight entries stops at the first that cannot be settled |
| `DriverObject.ScanDigests` | agent/driver/lifecycle.go:788-800 | One pass finds the last simulated and the last applied digest of the identity |
| `DriverObject.Lifecycle.WriteRecord` | agent/driver/journal_file.go:99-121 | A journal write under any fault: refused, lost, landed, or landed and reported as failed |
| `DriverObject.Lifecycle.WriteEnding` | agent/driver/reservation.go:134-167 | A release under any fault |
| `DriverObject.Lifecycle.WriteLine` | agent/driver/lifecycle.go:548-553 | A receipt append under any fault |
| `DriverContract.OwnershipTokenFor` | agent/driver/contract.go:917-925 | The derived token is always acceptable as a token and as a digest |
| `AuditProtocol.EveryRunIsGood` | core/audit/service.go:119-314 | Over every run of appends, verifications, restarts with any keyring, crashes and torn anchor writes, the anchor journal stays the list of heads of successive prefixes of the entry chain, the database stays at most one entry ahead, and neither log loses or rewrites anything |
| `AuditProtocol.VerifyGood` | core/audit/service.go:239-314 | Verify leaves the database alone and succeeds exactly when both logs are readable, the keys are known and the missing anchor can be written; success brings the anchor exactly level |
| `AuditProtocol.AppendGood` | core/audit/service.go:143-214 | Append refuses while the database is ahead and leaves the database as it was; it succeeds exactly when the request is proper and its id unused, the anchor is level and loads with known keys, and commit, re-read and anchor write go through, and then exactly the requested entry is committed and anchored |
| `AuditProtocol.InsertsUnlessUsed` | core/storage/audit.go:70-111 | At its head a sound database refuses an entry exactly when the id is taken: the uniqueness of hashes never objects |
| `AuditProtocol.PerformGood` | core/audit/service.go:119-314 | Every single call keeps the relation between the two logs and only extends them |
| `AuditProtocol.GenesisAnchor` | core/audit/service.go:119-133 | At first start the relation is established exactly when the genesis line reached the file whole, the file is broken exactly when the line reached it in part or the file was created and stayed empty, and otherwise nothing has changed |
| `AuditProtocol.BrokenForever` | core/audit/service.go:361-412 | A partial genesis line is final: no later call of any service ever succeeds |
| `AuditProtocol.VerifiedChain` | core/audit/service.go:239-314 | On any database and anchor file whatever, success means one unbroken chain whose first Count entries carry the trusted head |
| `AuditProtocol.ChainIsVerified` | core/audit/service.go:239-314 | Conversely, such a chain is accepted as soon as the missing anchors can be written |
| `AuditProtocol.TamperingIsReported` | core/audit/service.go:239-314 | If the database is replaced by anything while the anchor file is kept, a verification that succeeds has found every anchored entry in place with every hashed field unaltered |
| `AuditProtocol.HeadFixesChain` | core/audit/service.go:500-524 | With an injective hash, the head fixes every hashed field of every entry |
| `AuditProtocol.WalkMeaning` | core/audit/service.go:256-287 | The row loop accepts exactly the unbroken chains signed with known keys |
| `AuditProtocol.ReadAnchored` | core/audit/service.go:361-412 | A journal that lists heads of successive prefixes loads as its last line if and only if its signers are known |
| `AuditService.AuditDatabase.constructor` | core/storage/audit.go:29-45 | Holds the given rows |
| `AuditService.AuditDatabase.GetHead` | core/storage/audit.go:29-45 | Reads the stored head |
| `AuditService.AuditDatabase.ListAfter` | core/storage/audit.go:117-147 | The first rows in key order after the given sequence, up to the limit |
| `AuditService.AuditDatabase.CommitMutation` | core/storage/audit.go:70-111 | Row and head change together or not at all |
| `AuditService.AuditService.constructor` | core/audit/service.go:70-106 | A service over the given database and anchor file |
| `AuditService.AuditService.Load` | core/audit/service.go:361-412 | Cuts a torn tail off, then accepts the file exactly when every line continues the one before |
| `AuditService.ScanLines` | core/audit/service.go:393-410 | The line loop is the recursive reading of the file |
| `AuditService.AuditService.Write` | core/audit/service.go:414-450 | Appends one line, whole, torn or not at all |
| `AuditService.AuditService.WalkPages` | core/audit/service.go:248-288 | Whatever the page boundaries, the paged loop is one walk over all rows in order |
| `AuditService.AuditService.WalkPage` | core/audit/service.go:256-287 | One page advances the walk by exactly its rows |
| `AuditService.AuditService.WriteAll` | core/audit/service.go:301-307 | Missing anchors are written in order up to the first failure |
| `AuditService.AuditService.VerifyChain` | core/audit/service.go:239-314 | Exactly the verify transition the protocol results are about |
| `AuditService.AuditService.InitializeAnchor` | core/audit/service.go:119-133 | Exactly the initialize transition |
| `AuditService.AuditService.AppendEntry` | core/audit/service.go:143-214 | Exactly the append transition |
| `NanoTokens.Tokenize` | core/nano/nano.go:199-315 | The loop returns exactly the recursive reading of the source, with the line and column of every token equal to its true byte position |
| `NanoTokens.TokensAreSlices` | core/nano/nano.go:199-315 | Tokens are exact slices of the source in order, with only white space and comments before, between and after them, at their true positions, within the limit |
| `NanoTokens.TokensExactly` | core/nano/nano.go:199-315 | A list of tokens is returned if and only if it tiles the source in this way within the limit |
| `NanoTokens.LaidOutIsRead` | core/nano/nano.go:199-315 | Every tiling of the source from any point on, within the limit, is what is read there |
| `NanoTokens.LexLaidOut` | core/nano/nano.go:199-315 | Every successful reading tiles the source from any point on |
| `NanoTokens.RenderedTextReadsBack` | core/nano/nano.go:199-315 | Reading undoes writing, for every list of well-formed symbols within the limit |
| `NanoTokens.LexemeIsWellFormed` | core/nano/nano.go:230-311 | Whatever is read belongs to its lexical class |
| `NanoTokens.LexemeReads` | core/nano/nano.go:230-311 | Whatever belongs to a class is read back whole from in front of a blank |
| `NanoTokens.ScanLexeme` | core/nano/nano.go:230-311 | The inner loops find exactly the longest symbol of its class or fail |
| `NanoTokens.ScanNumeral` | core/nano/nano.go:273-310 | Digits, a fraction, or one unit letter, and nothing glued to them |
| `NanoTokens.ScanFraction` | core/nano/nano.go:279-290 | A point must be followed by a digit, and nothing may be glued to the fraction |
| `NanoTokens.Advance` | core/nano/nano.go:264-267 | Stops at the first character outside the class |
| `NanoGrammar.ProgramSound` | core/nano/nano.go:367-547 | What the parser accepts is derived by the grammar within the limits, by the tree it returns |
| `NanoGrammar.ProgramComplete` | core/nano/nano.go:367-547 | Every derivation within the limits is accepted with that very tree |
| `NanoGrammar.OneTree` | core/nano/nano.go:367-547 | A list of symbols has at most one derivation |
| `NanoGrammar.ProgramMeaning` | core/nano/nano.go:367-474 | The denoted program has the agents in order; without a schedule it has no conditions and no intents; with one it has its interval, the seconds that interval means, and exactly the conditions and intents of its rule in order |
| `NanoGrammar.IntervalSeconds` | core/nano/nano.go:549-563 | Accepted intervals are positive and fit 64 bits |
| `NanoGrammar.IntervalMeaning` | core/nano/nano.go:549-563 | Exactly the positive products that fit 64 bits are accepted, so the division check neither overflows nor refuses too much |
| `NanoParser.Compile` | core/nano/nano.go:154-174 | A source is accepted exactly when it has a derivation within the limits, and the result is the program that derivation denotes |
| `NanoParser.Parser.constructor` | core/nano/nano.go:329-335 | Starts at the first token |
| `NanoParser.Parser.Take` | core/nano/nano.go:337-343 | Returns the next token and never moves past the end |
| `NanoParser.Parser.Accept` | core/nano/nano.go:345-351 | Consumes a token of the kind or fails |
| `NanoParser.Parser.AcceptWord` | core/nano/nano.go:353-365 | Consumes the keyword or fails |
| `NanoParser.Parser.Number` | core/nano/nano.go:536-547 | Consumes a finite number or fails |
| `NanoParser.Parser.Condition` | core/nano/nano.go:476-499 | Result and remaining tokens are those of the grammar |
| `NanoParser.Parser.Intent` | core/nano/nano.go:501-534 | Result and remaining tokens are those of the grammar |
| `NanoParser.Parser.TradeTail` | core/nano/nano.go:512-533 | Result and remaining tokens are those of the grammar |
| `NanoParser.Parser.Conditions` | core/nano/nano.go:442-455 | The loop over joined conditions is the recursive list of the grammar, within the limit |
| `NanoParser.Parser.Intents` | core/nano/nano.go:462-471 | The loop over actions is the recursive list of the grammar, within the limit |
| `NanoParser.Parser.Rule` | core/nano/nano.go:440-474 | A rule has at least one condition and one action |
| `NanoParser.Parser.ScheduleItem` | core/nano/nano.go:412-438 | Result and remaining tokens are those of the grammar |
| `NanoParser.Parser.Strategy` | core/nano/nano.go:367-410 | The parsed program is what the derivation denotes |
| `NanoParser.Parser.Items` | core/nano/nano.go:379-404 | The loop over agents and the schedule is the recursive list of the grammar: agents up to the limit, one schedule at most |
| `NanoEvaluate.Evaluate` | core/nano/nano.go:592-667 | Succeeds exactly when the recursive meaning of the frame is defined and affordable, and then returns its intents, trace, count and cursor; every error returns the original cursor |
| `NanoEvaluate.EvaluationSplits` | core/nano/nano.go:592-667 | A frame split anywhere: evaluating the parts in turn from the carried cursor succeeds within the joint budget if and only if the whole does, and then gives the concatenated intents, the summed count and the same cursor |
| `NanoEvaluate.MeaningSplits` | core/nano/nano.go:623-665 | The meaning of a frame is the meaning of its beginning followed by that of its end from the carried cursor |
| `NanoEvaluate.ValidateFrame` | core/nano/nano.go:599-616 | Accepts exactly the frames within the limits whose timestamps do not fall and whose named series are aligned and finite |
| `NanoEvaluate.EvaluatePoint` | core/nano/nano.go:632-664 | One due point adds its conditions and, if all hold, its intents |
| `NanoEvaluate.CheckConditions` | core/nano/nano.go:633-653 | Stops at the first condition that fails or has no series |
| `NanoEvaluate.FireIntents` | core/nano/nano.go:657-664 | All intents of the rule in order, within the budget |
| `NanoEvaluate.AdmitWatchdog` | core/nano/nano.go:176-186 | Admits exactly the programs without a trade |
| `NanoRunner.FiresAreSpaced` | core/nano/runner.go:73-151 | Over every interleaving of runners of one compiled program and node, with findings in any time order and commits lost, torn or refused, fire times strictly increase in commit order, are at least the interval apart, and no due time overflows |
| `NanoRunner.ActKeepsPace` | core/nano/runner.go:73-111 | Each step of each runner keeps the stored cursor at or beyond the last fire plus the interval |
| `NanoRunner.StoreKeyInjective` | core/nano/runner.go:123-151 | Distinct program and node pairs have distinct keys, because a digest contains no separator |
| `NanoRunner.MemoryCursorStore.constructor` | core/nano/runner.go:119-121 | A new store is empty |
| `NanoRunner.MemoryCursorStore.Load` | core/nano/runner.go:123-133 | The saved cursor, or the zero cursor |
| `NanoRunner.MemoryCursorStore.CompareAndSwap` | core/nano/runner.go:135-151 | Replaces the cursor of the key if and only if it still is the one read, and touches no other key |
| `NanoRunner.Runner.constructor` | core/nano/runner.go:48-69 | A runner over the given store |
| `NanoRunner.Runner.RunFinding` | core/nano/runner.go:73-111 | Returns exactly the evaluation of the finding from the stored cursor, after saving the new cursor; a failure leaves the store as it was; its effect on the store is that of the load and commit steps the spacing result is about, and it returns intents only when those steps fire |
| `JsonPrescan.PrescanMeaning` | agent/capability/load.go:208-301 | On the tokens of any value tree the prescan accepts exactly when the tree is an object, nests at most 8 containers, repeats no case-folded member name within one object, and has only clean strings |
| `JsonPrescan.AcceptedDocumentsDoNotExtend` | agent/capability/load.go:217-219 | Nothing may follow an accepted document, and no shorter beginning of it is accepted |
| `JsonPrescan.PrescanTokens` | agent/capability/load.go:208-280 | The loop over a mutable stack of frames is the stack machine the two results are about |
| `JsonPrescan.ValueRead` | agent/capability/load.go:208-274 | In any context the machine reads a value tree to its end exactly when the tree is acceptable there, and then stands behind it |
| `JsonPrescan.MembersRead` | agent/capability/load.go:250-268 | Likewise for a run of members with the names seen so far |
| `JsonPrescan.ItemsRead` | agent/capability/load.go:250-268 | Likewise for a run of array items |
| `QueueModel.NothingIsLost` | agent/runtime/queue.go:125-272 | Over every run of enqueues, drains, failed and torn saves, crashes and restarts with distinct event ids: an event leaves the queue only after a submission containing it was accepted, memory and file hold the same events after every call, and handed-out numbers strictly increase across restarts |
| `QueueModel.PerformKeeps` | agent/runtime/queue.go:125-338 | Every single call keeps that relation |
| `QueueModel.BatchMeaning` | agent/runtime/queue.go:187-224 | A batch is sorted by sequence, of one boot, deliverable, taken from the queue, within the maximum, and empty only if the queue is |
| `QueueModel.BatchExact` | agent/runtime/queue.go:200-222 | A batch is refused if and only if the scan meets an event it cannot deliver before it is full; otherwise it is the first maximum events of the first boot in the queue, each as often as queued |
| `QueueModel.KeepMeaning` | agent/runtime/queue.go:229-272 | What remains are exactly the events whose id was not acknowledged |
| `QueueModel.AcknowledgeKeeps` | agent/runtime/queue.go:229-272 | An acknowledged batch leaves the queue and, ids being distinct, nothing else does |
| `QueueModel.DrainKeeps` | agent/runtime/loop.go:121-139 | Whatever the submitter and the disk do, draining removes only what was accepted |
| `QueueModel.DrainEmpties` | agent/runtime/loop.go:121-139 | With a submitter that accepts and saves that go through, as many rounds as events empty any deliverable queue |
| `QueueLoss.AcknowledgeLosesNothing` | agent/runtime/queue.go:229-272 | For every queue and every acknowledged batch: all queued events remain or were sent if and only if every queued event that shares an id with the batch is itself in the batch |
| `QueueLoss.DrainExact` | agent/runtime/loop.go:121-139 | A drain leaves every enqueued event queued or accepted if and only if none of its rounds installs the acknowledgement of a batch that shares an id with an enqueued, not yet accepted event outside it |
| `QueueLoss.RunLosesNothingExactly` | agent/runtime/queue.go:125-272 | With or without distinct ids, over every run: nothing enqueued is lost at any time if and only if none of the drains of the run drops anything in this way |
| `QueueLoss.DistinctIsUnambiguous` | agent/runtime/queue.go:229-272 | No batch of a queue with distinct ids is ambiguous in this way |
| `QueueLoss.BlockedForever` | agent/runtime/queue.go:187-224 | Behind an undeliverable event at the front, no call whatever delivers anything any more |
| `QueueLoss.BootlessEventBlocks` | agent/runtime/queue.go:150-183 | Enqueue admits an event without a boot id on a first start, and after any further calls it is still first, nothing has been accepted and every drain is refused |
| `QueueLoss.SharedIdIsLost` | agent/runtime/queue.go:229-272 | From a first start, one enqueue of two events of different boots with one id and one accepted round: the second event is gone without ever having been submitted |
| `QueueObject.QueueFile.constructor` | agent/runtime/queue.go:68-96 | A missing file is the empty queue |
| `QueueObject.AgentQueue.constructor` | agent/runtime/queue.go:68-96 | Opens with the state of the file |
| `QueueObject.AgentQueue.Install` | agent/runtime/queue.go:305-338 | Installs the whole state or nothing, and says which even when it reports an error |
| `QueueObject.AgentQueue.Next` | agent/runtime/queue.go:125-142 | Hands out the next number only after it is saved; an increment that could not be saved stays in memory, so that number is skipped and never handed out |
| `QueueObject.AgentQueue.EnqueueBatch` | agent/runtime/queue.go:150-183 | All entries or none |
| `QueueObject.AgentQueue.NextBatch` | agent/runtime/queue.go:187-224 | Exactly the batch the results are about |
| `QueueObject.AgentQueue.AcknowledgeBatch` | agent/runtime/queue.go:229-272 | Exactly the acknowledgement the results are about, refused when it matches nothing |
| `QueueObject.SelectEvents` | agent/runtime/queue.go:200-221 | The scan takes events of the first boot it meets, up to the maximum, and refuses foreign or bootless ones |
| `QueueObject.SortEvents` | agent/runtime/queue.go:222 | The result is the sorted arrangement the batch results are about |
| `QueueObject.KeepUnsent` | agent/runtime/queue.go:246-259 | The loop keeps exactly the events not acknowledged |
| `QueueObject.Loop.constructor` | agent/runtime/loop.go:52-71 | A loop over the given queue |
| `QueueObject.Loop.DrainQueue` | agent/runtime/loop.go:121-139 | Exactly the drain the results are about; it ends because each acknowledged round leaves fewer events |
| `QueueObject.Loop.RunOnce` | agent/runtime/loop.go:96-119 | Collects, enqueues as one batch, then drains |
| `QueueObject.Loop.BuildEntries` | agent/runtime/loop.go:105-112 | Every observation gets a fresh number, in order |
| `IdentitySetup.OneIdentityEver` | core/identity/identity.go:64-121 | From any directory setup can have left, over every run of calls, crashes and failures, two different identities are never returned |
| `IdentitySetup.CommittedForGood` | core/identity/identity.go:64-121 | Once an identity is committed in the stage, every later call that returns anything returns that identity |
| `IdentitySetup.EnsureResumes` | core/identity/identity.go:64-121 | From every state a crashed setup can leave, a call whose steps go through returns the committed identity, or the new candidate if nothing was committed, unless its certificate is no longer valid |
| `IdentitySetup.EnsureSound` | core/identity/initialization.go:83-160 | At every crash point, no installed artifact changes, and what is installed are staged bytes of one identity |
| `IdentitySetup.StateMeansComplete` | core/identity/initialization.go:403-433 | The signed state file is installed only when the other five artifacts are, with the bytes of one committed identity |
| `IdentitySetup.InstallKeeps` | core/identity/initialization.go:403-433 | Installing stops at the first failure with a prefix of the artifacts in place, the state file last |
| `IdentitySetup.PrepareKeeps` | core/identity/initialization.go:83-109 | Preparing resumes a committed stage, rebuilds an incomplete one, and never replaces a committed one |
| `IdentitySetup.IdentityDirectory.constructor` | core/identity/initialization.go:66-81 | A new directory is empty |
| `IdentitySetup.IdentityDirectory.Commit` | core/identity/initialization.go:553-579 | A file step happens whole or not at all, and may still report an error |
| `IdentitySetup.IdentityDirectory.StageAll` | core/identity/initialization.go:136-148 | Stages the artifacts in order up to the first failure |
| `IdentitySetup.IdentityDirectory.Build` | core/identity/initialization.go:111-160 | Exactly the build transition: the manifest is written last |
| `IdentitySetup.IdentityDirectory.Prepare` | core/identity/initialization.go:83-109 | Exactly the prepare transition |
| `IdentitySetup.IdentityDirectory.InstallAll` | core/identity/initialization.go:403-433 | Exactly the install transition |
| `IdentitySetup.IdentityDirectory.RemoveStage` | core/identity/initialization.go:435-481 | Exactly the cleanup transition |
| `IdentitySetup.IdentityDirectory.CreateIdentity` | core/identity/identity.go:105-121 | Exactly the create transition |
| `IdentitySetup.IdentityDirectory.EnsureIdentity` | core/identity/identity.go:64-103 | Exactly the ensure transition the results are about |
| `PlanExecution.ExecutionShape` | agent/enforcement/enforcer.go:247-316 | For every driver: preconditions, then actions, then verifications, each called once in order up to the first that stops the plan, and after an action or verification failure every rollback operation once in order; the verdict is COMMITTED, ROLLED_BACK or REJECTED exactly as these went |
| `PlanExecution.ExecutionFollows` | agent/enforcement/enforcer.go:247-316 | Every reported result is what the driver answered at exactly that place in the call log, each phase stops at its first failure, and FAILED is reported if and only if some rollback operation failed |
| `PlanExecution.CommittedIsEvidenced` | agent/enforcement/enforcer.go:738-810 | A committed plan called every check, and each required one passed with current evidence at its own place in the log |
| `PlanExecution.Judge` | agent/enforcement/enforcer.go:738-778 | A check passes if and only if the driver says so, all its evidence is valid and some of it is current |
| `PlanExecution.NoPlanRunsTwice` | agent/enforcement/enforcer.go:105-155 | Across any sequence of deliveries, redeliveries, store failures and crashes, no plan id is executed twice and no action is asked of the driver a second time |
| `PlanExecution.ApplyKeeps` | agent/enforcement/enforcer.go:247-316 | One delivery keeps that |
| `PlanEnforcer.MemoryStateStore.constructor` | agent/enforcement/enforcer.go:98-103 | A new store has the given floors and no records |
| `PlanEnforcer.MemoryStateStore.ReservePlan` | agent/enforcement/enforcer.go:105-131 | Grants a plan id once, returns a finished result on exact redelivery, and refuses everything else |
| `PlanEnforcer.MemoryStateStore.CompletePlan` | agent/enforcement/enforcer.go:133-155 | Stores one terminal result per reserved plan and revision |
| `PlanEnforcer.Enforcer.constructor` | agent/enforcement/enforcer.go:197-242 | An enforcer over the given store |
| `PlanEnforcer.Enforcer.CheckAll` | agent/enforcement/enforcer.go:294-300 | Checks in order up to the first required one that does not pass |
| `PlanEnforcer.Enforcer.ApplyAll` | agent/enforcement/enforcer.go:301-307 | Actions in order up to the first that fails |
| `PlanEnforcer.Enforcer.RollbackAll` | agent/enforcement/enforcer.go:878-893 | Every rollback operation, whatever the earlier ones did |
| `PlanEnforcer.Enforcer.UndoPlan` | agent/enforcement/enforcer.go:878-893 | ROLLED_BACK only if every rollback operation succeeded |
| `PlanEnforcer.Enforcer.ExecutePlan` | agent/enforcement/enforcer.go:294-315 | Exactly the execution the results are about |
| `PlanEnforcer.Enforcer.CarryOut` | agent/enforcement/enforcer.go:294-315 | Executes and completes; a process that dies in between has asked the driver only for a prefix |
| `PlanEnforcer.Enforcer.ApplyPlan` | agent/enforcement/enforcer.go:247-316 | Exactly the delivery the results are about, under every store fault and crash |
| `PolicyCompiler.CompiledPlansAreAccepted` | core/policy/compiler.go:135-203 | A plan compiled from a validated profile is accepted by the validator of the same node, key and manifest at every moment of its five minutes if and only if the policy id is a safe token, there are 1 to 32 exits, the allowed destinations are at most 32, unique, trimmed and bounded, and no list holds CR, LF or NUL |
| `PolicyCompiler.MeshProfilesCompile` | core/policy/compiler.go:43-116 | In mesh mode only an empty policy id and improper recovery and resolver lists keep a profile from compiling; exits and allowed destinations are not looked at |
| `PolicyCompiler.MeshProfilesAccepted` | core/policy/compiler.go:43-116 | Of the plans that result the enforcer accepts exactly those with a safe id, proper exits and allowed destinations, and no line break or NUL in any list |
| `PolicyCompiler.CompiledButRefused` | core/policy/compiler.go:43-116 | For each condition the compiler does not look at, a concrete profile that compiles to a plan the enforcer refuses (unsafe id, no exits, duplicate destination, a line break in each of the four lists), and one profile whose plan it accepts |
| `PlanContract.AcceptedExactlyInWindow` | agent/enforcement/enforcer.go:328-415 | A plan accepted once is accepted at exactly the moments from its creation to before its expiry that do not precede its signature by more than five minutes |
| `PolicyCompiler.LayoutAccepted` | agent/enforcement/enforcer.go:417-506 | Whatever the profile, a composed plan has the layout, checks and timeouts the validator expects |
| `PolicyCompiler.ParametersAccepted` | agent/enforcement/enforcer.go:553-590 | The parameters of all steps are accepted if and only if the profile is portable |
| `PolicyCompiler.RequirementsMet` | agent/enforcement/enforcer.go:664-690 | What the compiler found supported, the validator finds supported |
| `PolicyCompiler.Validate` | core/policy/compiler.go:43-116 | No violation is collected if and only if the profile is valid |
| `PolicyCompiler.EgressViolations` | core/policy/compiler.go:70-84 | No violation is collected if and only if the egress section is present and valid |
| `PolicyCompiler.ActionViolations` | core/policy/compiler.go:102-108 | No violation is collected if and only if every action policy is valid |
| `DigestLayout.LayoutInjective` | agent/driver/contract.go:868-909 | The length-prefixed layout is injective on lists of fields shorter than 4 GiB each |
| `DigestLayout.LongFieldsCollide` | agent/driver/contract.go:883-888 | Beyond that the 32-bit prefix wraps: one field of 4 GiB is laid out like a list of empty ones |
| `DigestLayout.WordInjective` | agent/driver/contract.go:892-896 | The 8-byte form is injective on unsigned and on signed 64-bit numbers |
| `DigestLayout.GroupIsPrefixFree` | agent/driver/contract.go:898-903 | The count keeps a list apart from whatever follows it |
| `DigestLayout.SortForgetsOrder` | agent/driver/probe.go:224-250 | Sorting a copy forgets the order and nothing else |
| `CapabilityDigest.ProbeDigestIdentifies` | agent/driver/probe.go:203-256 | Two probe results have the same digest input if and only if they agree in all fields up to the order of operations, reason codes and constraints |
| `CapabilityDigest.ManifestDigestIdentifies` | agent/capability/manifest.go:222-261 | Two manifests whose entries do not collide under the hash have the same digest input if and only if their headers agree and their entries are the same up to order |
| `CapabilityDigest.OwnershipInputInjective` | agent/driver/contract.go:917-925 | The ownership token input fixes plan, revision, operation, target and reservation token |
| `DigestWriter.Writer.constructor` | agent/driver/contract.go:877-881 | Starts with the domain as first field |
| `DigestWriter.Writer.Write` | agent/driver/contract.go:883-890 | What has been written is always the layout of the fields so far |
| `DigestWriter.Writer.WriteField` | agent/driver/contract.go:883-888 | Length, reduced to 32 bits, then the bytes |
| `DigestWriter.Writer.Uint` | agent/driver/contract.go:892-896 | One more field, the number as 8 bytes |
| `DigestWriter.Writer.Strings` | agent/driver/contract.go:898-903 | One counted list more |
| `DigestWriter.Writer.Uints` | agent/driver/probe.go:226-229 | One counted list of numbers more |
| `DigestWriter.Writer.Time` | agent/driver/contract.go:905-908 | Seconds and nanoseconds as two fields more |
| `DigestWriter.Writer.Pairs` | agent/capability/manifest.go:254-259 | Key and probe digest of every entry in the given order |
| `DigestWriter.WriteProbe` | agent/driver/probe.go:203-256 | The bytes hashed for a probe result are the layout the identification result is about |
| `DigestWriter.WriteManifest` | agent/capability/manifest.go:222-261 | The bytes hashed for a manifest are the layout the identification result is about |

## Left out

- File opening, locking, permissions, links and directory sync: a durable write is one step with a fault.
- Ed25519, SHA-256, HMAC, X.509 and PEM internals; protobuf, base64 and JSON encodings of stored values.
- HTTP clients and servers, enrollment, ingest, collectors, the live simulator, nftables rendering, footprint, posture, scrambler, actions, configuration and everything under cmd: plumbing or small case tables that would add only easy members.
- Lifecycle.Health, the contents of recovery reports, and receipt listing: nothing in the protocol reads them.
- A crash between the reservation store and the journal in Reserve leaves a booking that no record names; the model has that state, and nothing is claimed to release it.
- Receipts that a driver supplies are compared by value; the bounds on diff lines and reason codes of simulations and verifications are one flag each.
- Messages and positions of syntax errors, and which of several violations or reason codes is reported first where the caller only sees a refusal.
- NanoEvaluate.Evaluate: floating-point values are real numbers, so rounding in comparisons is not modelled; not-a-number and infinities are separate values that the frame check refuses.
- NanoParser.Parser.Number: the decimal-to-float conversion is a parameter.
- NanoEvaluate.ValidateFrame: white space in signal names is the ASCII kind.
- NanoRunner.Runner.RunFinding: how a finding becomes a frame is modelled as far as the cursor depends on it; the input digest and reason normalisation are not.
- JsonPrescan.PrescanTokens: case folding and the set of clean characters are parameters, and an error of the token decoder itself is not modelled.
- QueueObject.SortEvents: ties in sequence keep queue order, which the program's sort does not promise; no result depends on it.
- QueueObject.AgentQueue.EnqueueBatch: the wire form and size of events are not modelled.
- PolicyCompiler.Validate: the wire size of a profile and the final ordering of the violations are not modelled.
- PolicyCompiler.CompiledPlansAreAccepted: the derived plan id is a parameter that must be a safe token, which a hexadecimal digest is; nonce and signature encodings are abstract.
- PlanEnforcer.Enforcer.ApplyPlan: result signing and clock failures are not modelled.
- AuditService.AuditService.AppendEntry: the identifier and size checks of a request are flags of the environment, and the 64-bit overflow of the entry count is not modelled.
- IdentitySetup.IdentityDirectory.RemoveStage: removal is one step, so nothing is claimed about a partially deleted stage.
- CapabilityDigest.ManifestDigestIdentifies: states the digest input of manifests whose entries carry the digest of their own content, which validation checks; the checks themselves are not modelled.
