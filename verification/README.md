# Run transport, schedulers, uploads, locks and relay: a verified model

AgentMate executes *Runs*. The Server owns the tables: it grants leases on Runs to
devices with increasing epochs, commits the events a device sends, recovers Runs
whose lease ended, and settles the automation fire or work item that started a Run
in the transaction that ends it. A Local Agent on each device numbers its events,
keeps them in a durable write-ahead log until the Server acknowledges them, and
archives what a newer epoch has made ineligible. This project models both ends,
line by line where they decide something, and proves what the two together keep.

How the model is laid out:

- `RunTypes`, `EventLog`, `TerminalOutput`, `RunProtocol`: the Server's rows and every
  transaction on them as functions from tables to tables. A transaction that raises
  returns its argument, because the source rolls back.
- `Database`, `RunProtocolStore`, `AutomationScheduler`, `WorkItemAutoScheduler`,
  `LocalAgentStore`, `RunWorkerLeader`, `AssetObjectStore`, `RelayStore` and the class in
  `ResourceLocks`: the same operations in place, statement by statement with the loops
  of the source, each proved to compute its function.
- `Ledger`, `Tether`, `Admission` (what holds whatever devices send), `Landing` (what a
  batch does), `Coupling`, `Outcomes`, `Verdict` (what holds exactly for orderly batches),
  `History` (over whole runs), `Transcript`, `Batches`, `Stranding`, `Paging`, `QueueContext`.
- `Workspaces`, `Recovery`, `EventEffects`, `Settlement`, `Requests`, `RunLife`, `PolicyOutcomes`,
  `ToolExclusion`, `RelayOutcomes`: what comes of each operation, in terms of the columns alone.
- `LocalAgent`, `Transport`, `TransportServer`, `TransportAgent`, `EndToEnd`, `Overtaken`: one
  device against the Server and everybody else. Requests sit in a bag and may be lost,
  delayed, duplicated or reordered; answers may be lost or late; the process may restart.
- `AutoExecution`, `ResourceLocks`, `AssetObjects`, `UploadTrips`, `Relay`: the attached machines.

Eight facts about the source that the model keeps, and that the obvious reading gets wrong:

- An expired lease found by a renewal or a submission is *not* recorded: the raise that
  follows rolls the expiry back. `RunProtocolStore.RenewLease` and `SubmitEvent` write it and
  then lose it.
- A batch may go on after its terminal event and overwrite the Run's status.  Leases,
  recovery, capacity, workspaces, ended Runs and attempt chains do not suffer from it
  (`TetheredAlways`, `SafeAlways`, `ChainAlways`).  `StrandedExactly` says when it leaves a
  Run without its lease, which then never moves again (`StrandedForever`);
  `FinalizedExactly` says when the message is not what was streamed (`LateTextBatch`);
  `FiredExactly` says when a fire and its Run part (`UnsettlingBatch`, after which two
  attempts overlap: `OverlappingAttempts`).
- An account may post an assistant message on a Run.  It becomes a second answer, or keeps
  the streamed one out (`PostedExactly`, `PostedFirstStays`); an ended Run always has one
  (`EndedMeansAnswered`).
- Local acknowledgements are found by Run only. `RenewalSafeExactly` and
  `StaleAckExactly` say exactly when a late answer is harmless, and
  `OvertakenRenewalReusesSequence` is a run in which it is not.
- A zero-byte upload accepts an empty part 0 and can then never be completed
  (`EmptyPartBlocksCompletion`, `EmptyUploadExactly`); nor can one that holds a wrong part
  (`WrongPartBlocksCompletion`).
- An event cursor that carries only a sequence skips later epochs
  (`SequenceOnlyCursorSkips`).
- The lock of a workspace is named by owner and workspace with a colon between, so an owner with
  a colon in its name could share it with another (`ColonMakesStrangersShare`).
- Ignoring a fire checks it and writes it in separate statements (`IgnoredLateExactly`).

Assumptions: one monotone clock; serialisable `BEGIN IMMEDIATE` transactions, and the same
atomicity for code that opens none (`ignore_automation_fire`, the relay's `acknowledge`,
`configure_policy`, `put_part` and the file work of `complete_upload`), unless a row says
otherwise; digests are injective; a uuid is never drawn twice; a Run's owner, project, workspace, mode and
recovery limit never change; Runs enter through a turn, a posted Run, a fire or a policy;
automations are not removed while they have fires; users do
not choose idempotency keys that look like a scheduler's; a device token belongs to the
device's owner.

## Model

| member | source | states |
|---|---|---|
| RunProtocol.ParallelCapacity | server/run_protocol_store.py:422-427 | a device's declared parallelism, falsy values included, always lands in 1..8 |
| RunProtocol.ResidentCapacity | server/run_protocol_store.py:430-436 | resident capacity is at least the parallel capacity and never above 32 |
| RunProtocol.SelectRun | server/run_protocol_store.py:613-651 | a Run is selected only below both capacities, and only if it is claimable, the caller's, routed to it, covered by its capabilities and free of workspace conflicts |
| RunProtocol.FirstEligible | server/run_protocol_store.py:638-651 | no listed Run before the selected one was eligible, and none at all if nothing is selected |
| RunProtocol.CurrentLease | server/run_protocol_store.py:676-687 | a lease is accepted only from its own owner and device, for its own Run, at the Run's current epoch |
| RunProtocol.LeaseTerm | server/run_protocol_store.py:654 | every granted or renewed lease lasts between 5 and 300 seconds |
| RunProtocol.MaxVersion | server/run_protocol_store.py:1106-1109 | the next command version is above every version the Run already has |
| EventLog.FindExisting | server/run_protocol_store.py:1017-1020 | the lookup finds a row by event id or by (Run, epoch, sequence), and reports none only if no row matches either key |
| Ledger.PerformKeepsValid | server/run_protocol_store.py:607-1247 | every transaction, whatever the batch, keeps: leases of a Run in strictly increasing epochs, an epoch's events exactly 1..ack, commit order lexicographic in (epoch, sequence), event ids distinct; and takes nothing committed back |
| Ledger.AppendKeepsOrder | server/run_protocol_store.py:1038-1047 | a row accepted under the current epoch comes after every committed row of its Run |
| Ledger.AppendKeepsLogs | server/migrations.py:806 | accepting the next row extends exactly one epoch's gap-free log |
| Ledger.GrantKeepsValid | server/run_protocol_store.py:652-663 | a new grant opens an epoch for which nothing was ever committed |
| Ledger.NothingBeyondEpoch | server/run_protocol_store.py:652 | no committed row carries an epoch its Run has not reached |
| Ledger.SameEpochSameLease | server/migrations.py:782 | a Run and an epoch name at most one lease |
| Ledger.AlreadyCommitted | server/run_protocol_store.py:1021-1032 | a committed row of the current lease never lies above the high water, so the branch that raises the ACK over an existing row cannot be taken |
| Ledger.DropFromIsQuiet | server/run_protocol_store.py:402-410 | a sweep grants nothing and commits nothing, and every lease it does not end keeps its columns |
| Ledger.OthersAreQuiet | server/run_protocol_store.py:1065-1247 | only a claim grants a lease and only a submission commits events |
| Tether.PerformKeepsTethered | server/run_protocol_store.py:375-410 | every transaction, whatever the batch, keeps: an active lease is at its Run's epoch, of a Run that is resident or that ended after the lease expired; epoch <= recoveries + 1 <= max_recoveries + 1 |
| Tether.SubmitKeepsTethered | server/run_protocol_store.py:999-1055 | so does a batch that goes on after its terminal event: if it ends the Run its lease is closed, and if not the Run stays resident |
| Tether.PerformKeepsEnded | server/run_protocol_store.py:1033-1055 | no transaction, whatever the batch, writes a Run that had ended, or takes a message back |
| Coupling.PerformKeepsCoupled | server/run_protocol_store.py:375-410 | every transaction keeps: queued and recoverable Runs have no active lease, leased, running and waiting Runs have one at the Run's epoch; the only exception is an accepted batch that ends its Run and then writes a status that needs a lease, and it always is one |
| Tether.OneActiveLease | server/migrations.py:784-785 | two active leases of one Run are the same lease, so the unique index is never violated |
| Coupling.StatusTellsLease | server/run_protocol_store.py:375-410 | the Run's status tells whether an active lease exists, and at which epoch |
| Coupling.DropKeepsCoupled | server/run_protocol_store.py:375-399 | ending one lease and recovering its Run in the same step restores the coupling, including the paused Run that is left paused |
| Coupling.FinishKeepsCoupled | server/run_protocol_store.py:1049-1055 | a terminal event closes the lease and ends the Run together |
| Coupling.GrantKeepsCoupled | server/run_protocol_store.py:652-663 | a claim gives a claimable Run its only active lease |
| Coupling.CancelKeepsCoupled | server/run_protocol_store.py:1065-1103 | cancelling ends a Run only when no lease could still drive it |
| Coupling.ResumeKeepsCoupled | server/run_protocol_store.py:1153-1211 | resuming without a live lease ends the Run, or makes it claimable if it was never leased, and leaves no active lease behind |
| Verdict.PerformKeepsOutcomes | server/run_protocol_store.py:798-988 | a transaction keeps "one assistant message per ended Run and none for others, holding its epoch's output; each fire in flight exactly while its current Run is not ended; one Run per attempt; no two active fires of a `skip` automation" if and only if it is orderly: an accepted batch that ends its Run writes a terminal status last and nothing the message reads afterwards, and no account posts an assistant message on a Run |
| Verdict.FinalizedExactly | server/run_protocol_store.py:1033-1055 | exactly which accepted batches keep the message of each ended Run equal to its epoch's output |
| Verdict.FiredExactly | server/run_protocol_store.py:922-988 | exactly which accepted batches leave every fire telling how the Run of its current attempt ended: all but those that end the Run of a fire and write a status that is not terminal last |
| Verdict.AbsorbAllReads | server/run_protocol_store.py:812-835 | events leave the collected output as it is if and only if they carry no text, end on the usage it has, and lead its trace back to itself |
| Verdict.TerminalLastIsConclusive | server/run_protocol_store.py:1049-1055 | a batch in which nothing follows a terminal event is always orderly |
| Verdict.PostedExactly | server/routers/business.py:305-338 | an assistant message posted by an account on any existing Run breaks "one message per ended Run" |
| Verdict.PostedFirstStays | server/run_protocol_store.py:838-866 | posted while the Run is open it stays the Run's only answer: what the Run streamed is dropped |
| Verdict.PerformKeepsAnswered | server/run_protocol_store.py:838-863 | every transaction, whatever the batch or the post, keeps: an ended Run has an assistant message |
| Outcomes.OthersKeepOutcomes | server/run_protocol_store.py:375-1247 | every transaction but a submission and a post keeps all of it |
| Outcomes.InsertIsEnding | server/run_protocol_store.py:922-960 | inserting a terminal event is such a step as well: it ends the Run, writes its message and settles its fire |
| Outcomes.EndingKeepsFinalized | server/run_protocol_store.py:838-863 | the step that ends a Run adds its one message, built from the epoch that ended it |
| Outcomes.EndingSettles | server/automation_scheduler.py:219-251 | the step that ends a fire's Run takes that fire out of flight and touches no other |
| Outcomes.FinishFindsFire | server/automation_scheduler.py:225-235 | the fire found for an ending Run is the one whose current attempt it is |
| Outcomes.EnqueueClassified | server/automation_scheduler.py:74-216 | enqueueing never fails: no fire waiting for a retry is out of attempts, and the next attempt's key is always free |
| Outcomes.NextAttemptIsFree | server/automation_scheduler.py:133-136 | no Run was ever created under the next attempt's key |
| Outcomes.IgnoreKeeps | server/routers/business.py:1030-1048 | ignoring a waiting or dead fire keeps fires coupled to their Runs |
| Outcomes.IgnoredLateExactly | server/routers/business.py:1030-1048 | the route's check and its update are separate statements: an update that comes later keeps fires and Runs together if and only if the fire then waits for a retry, is dead or is ignored already |
| Outcomes.RecoverClassified | server/run_protocol_store.py:375-399 | recovery ends a Run that is open, not paused and out of recoveries, with the exhaustion message; in every other case it ends nothing, adds no message and moves no fire |
| Transcript.ContentIsJoined | server/run_protocol_store.py:812-851 | the final text is the concatenation of the streamed texts in order |
| Transcript.TraceIsSurviving | server/run_protocol_store.py:829-835 | below the limit the trace is exactly the items that no later plan overwrote, in order |
| Transcript.TraceIsBounded | server/run_protocol_store.py:829-835 | the trace has at most 10000 items and at most one plan |
| Transcript.EndedIffAnswered | server/run_protocol_store.py:838-863 | after any orderly history a Run has ended if and only if it has an assistant message, and never two |
| Transcript.EndedMeansAnswered | server/run_protocol_store.py:838-863 | after any history at all a Run that ended has an assistant message |
| Transcript.MessagesTellTheEpoch | server/run_protocol_store.py:798-866 | after any orderly history every message is the joined text of its Run's terminal epoch, with a bounded trace |
| Admission.PerformKeepsExclusive | server/run_protocol_store.py:439-466 | no transaction makes two live leases of one owner clash, although this is only checked when a Run is claimed; Workspaces.ClashExactly says what a clash is |
| Admission.GrantKeepsExclusive | server/run_protocol_store.py:645-648 | a Run admitted by the conflict query clashes with no live lease |
| Admission.PerformKeepsCapacity | server/run_protocol_store.py:422-436 | with capabilities capped at some resident capacity, no transaction lifts a device's live leases above it |
| Admission.SweptIsSound | server/run_protocol_store.py:607-613 | the sweep before a claim leaves tables in which the admission counts are exact |
| Admission.PerformRevivesNone | server/run_protocol_store.py:690-713 | nothing but a claim makes a lease live that was not: a renewal only extends a live one |
| History.LedgerAlways | server/run_protocol_store.py:607-1247 | over every history of transactions, with no hypothesis on what devices send, the ledger is valid and only grows |
| History.FencedForever | server/run_protocol_store.py:676-713 | once a later epoch is granted, no later event commits under an earlier one and no earlier lease is renewed or acknowledged further |
| History.TetheredAlways | server/run_protocol_store.py:375-410 | over every history with a monotone clock, whatever devices send, leases stay tied to their Runs and ended Runs stay exactly as they ended |
| History.AnsweredAlways | server/run_protocol_store.py:838-863 | over every history an ended Run has an assistant message |
| History.OneActiveLeaseAlways | server/migrations.py:784-785 | over every history with a monotone clock a Run has at most one active lease |
| History.SafeAlways | server/run_protocol_store.py:439-466 | over every history with a monotone clock and authentic devices, whatever their batches, leases stay tied to their Runs, belong to devices of their owner, and never clash |
| History.PerformKeepsGood | server/run_protocol_store.py:607-1247 | from a state in which every invariant holds, they all hold after a transaction if and only if it is orderly |
| History.EveryHistoryIsGood | server/run_protocol_store.py:607-1247 | every orderly history from empty tables satisfies all the invariants at once |
| History.GoodAlways | server/run_protocol_store.py:607-1247 | all the way through a history every invariant holds if and only if every transaction of it is orderly |
| History.BoundedRecovery | server/run_protocol_store.py:375-399 | over every history with a monotone clock, whatever devices send, a Run is leased at most max_recoveries + 1 times and at most once more than it was recovered, over any interleaving of expiry, revocation, pause and resume |
| History.LeasedPerEpoch | server/run_protocol_store.py:652 | a Run has at most one lease per epoch it reached |
| History.CapacityAlways | server/run_protocol_store.py:613-630 | over every history with a monotone clock and authentic devices, whatever their batches, a device whose claims report at most a given resident capacity never holds more live leases than that |
| History.NeverMoreThan32 | server/run_protocol_store.py:430-436 | over the same histories, however its capabilities change, a device never holds more than 32 live leases |
| Workspaces.SharedMeansReadOnly | server/run_protocol_store.py:439-466 | over every history with a monotone clock and authentic devices, whatever their batches: two live leases of one owner whose Runs share a project, a named workspace or the default one are both on Runs in mode `ask` or `plan` |
| Workspaces.ClashExactly | server/run_protocol_store.py:439-466 | two Runs clash if and only if they would work in the same place, a workspace column that names a project included, and not both are in mode `ask` or `plan` |
| Workspaces.ConflictsExactly | server/run_protocol_store.py:451-466 | the conflict query answers yes if and only if a live lease of the owner is on a leased, running, waiting or paused Run in the same place and one of the two may write |
| Workspaces.CapacitiesAreDeclared | server/run_protocol_store.py:422-436 | a declared capacity counts as it is within its bounds, and missing or zero counts as the default |
| Workspaces.SelectedExactly | server/run_protocol_store.py:613-651 | a claim selects a Run if and only if the device has room for it, computing and resident, and it is the first of the hundred oldest waiting Runs of the owner that fits |
| Workspaces.ClaimExactly | server/run_protocol_store.py:607-673 | after the sweep, exactly the next Run is taken: one more epoch, status `leased`, and one lease with the term asked for within 5 to 300 seconds |
| Workspaces.RenewExactly | server/run_protocol_store.py:690-713 | a renewal moves the deadline of a live lease of its own device at the current epoch, and nothing else ever |
| Recovery.ExpiryRecovers | server/run_protocol_store.py:375-410 | a Run that loses its lease to the sweep is paused or ended and keeps its row; or has a recovery left and becomes recoverable, with no message and no fire of it touched; or fails and is answered; a Run that loses none is untouched |
| Recovery.ExpiryEnds | server/run_protocol_store.py:402-410 | exactly the owner's active leases past their deadline become expired |
| Recovery.RevocationRecovers | server/run_protocol_store.py:321-347 | the same for the Runs a revoked device held |
| Recovery.RevocationEnds | server/run_protocol_store.py:321-347 | exactly the device's active leases become revoked, and only by its owner |
| RunLife.MovesExactly | server/run_protocol_store.py:350-1211 | the moves of a Run's status: whatever anyone sends, no transaction moves it in any other way |
| RunLife.NewRunsAreQueued | server/business_store.py:282-413 | Runs come into being queued |
| RunLife.LivesOnce | server/run_protocol_store.py:350-1211 | over every history with a monotone clock a Run that left the queue never enters it again, an ended Run stays as it is, and `succeeded` is never reached |
| RunLife.RevokedForever | server/run_protocol_store.py:104-160 | over every history a revoked device identity stays revoked |
| RunLife.RegisterExactly | server/run_protocol_store.py:104-160 | a device id belongs to its first owner |
| EventEffects.EventTells | server/run_protocol_store.py:922-1056 | one accepted new event writes the status its kind announces, the error code, the commands it answers, its lease and one row, and nothing else but messages and fires |
| EventEffects.BatchTellsStatus | server/run_protocol_store.py:922-988 | after a batch the Run has the status announced by the last new message that announces one, and its old status if none does |
| EventEffects.AcceptedExactly | server/run_protocol_store.py:1009-1039 | an event is accepted if and only if its sender holds the current lease, it is intact, and it is committed as it is, or new, next in order and sent while the lease is live |
| Settlement.EndingSettlesExactly | server/automation_scheduler.py:219-251 | the fire of a Run that ends succeeds, is ignored, waits for its next attempt with a backoff that doubles from attempt to attempt, or dies, by how the Run ended and whether an attempt is left; no other fire moves |
| Settlement.EventSettles | server/automation_scheduler.py:219-251 | the same in terms of the terminal event a device sends |
| Settlement.ExpirySettles | server/automation_scheduler.py:219-251 | over a whole sweep a fire is settled as failed if and only if its Run lost its lease with no recovery left |
| Settlement.StartedRunMovesFire | server/run_protocol_store.py:928-935 | `run.started` moves the queued fire of its Run to running, and no other |
| Settlement.FiresTellTheirRuns | server/automation_scheduler.py:219-251 | after any orderly history a fire and the Run of its current attempt tell each other: succeeded and completed, ignored and cancelled, waiting or dead and failed, in flight and open |
| Settlement.EndingMessage | server/run_protocol_store.py:812-863 | the message carries the error of the terminal event, or else the last one streamed, and the last usage reported |
| Requests.CancelExactly | server/run_protocol_store.py:1065-1103 | cancelling ends a Run nobody drives, asks the device of any other open one, and leaves ended and foreign Runs alone |
| Requests.CancelRoundTrip | server/run_protocol_store.py:963-975 | once the device says so the Run is cancelled, no cancel request of it waits any more, and its fire is given up |
| Requests.PauseExactly | server/run_protocol_store.py:1112-1150 | pausing takes effect at once on a waiting Run, asks the device of a computing one, once, and is refused for a Run that waits for its user or has ended |
| Requests.PauseRoundTrip | server/run_protocol_store.py:940-945 | once the device says so the Run is paused with its lease, no pause request of it waits, and a resume asks the device |
| Requests.ResumeExactly | server/run_protocol_store.py:1153-1211 | resuming asks the device while its lease lives; otherwise the leases expire and the Run becomes claimable if it never ran, and fails if it did |
| Requests.AnswerExactly | server/run_protocol_store.py:1214-1247 | an answer is queued exactly for a question this Run asked while it waits, under the version after all others |
| Requests.TurnExactly | server/business_store.py:309-345 | a key makes one Run, and a repeat is answered with it or refused by its hash |
| Requests.EnqueueExactly | server/automation_scheduler.py:74-216 | a key seen before starts the next attempt exactly while its fire waits for one; a new one starts the first, unless the automation skips while another fire of it is under way; the Run started is routed as the automation says |
| Batches.RetryChangesNothing | server/run_protocol_store.py:1017-1032 | a batch that succeeded once, sent again at any later time under the same epoch, changes no table and reports the lease's own ACK and terminal event |
| Batches.ReplyIsLeaseRow | server/run_protocol_store.py:1056-1062 | the answer to a submission is what the lease row holds afterwards |
| Batches.CutAnywhere | server/run_protocol_store.py:999-1062 | cutting a batch anywhere before its terminal event and sending the parts one after the other gives the same answer and the same tables |
| Landing.SubmitLands | server/run_protocol_store.py:999-1062 | an accepted batch changes one Run and one lease: its new messages are appended in order, the status is folded over them (EventEffects.BatchTellsStatus reads it off the last), the lease is closed if and only if one of them is terminal, the first terminal one writes the answer, and without a new message nothing changes |
| Landing.SubmitAllInserts | server/run_protocol_store.py:1009-1055 | the loop with its lookups does no more than insert the messages that carry the next expected sequence |
| Landing.DeadLeaseWritesNothing | server/run_protocol_store.py:1033-1038 | under a lease that is not live an accepted batch only repeats what is committed |
| Coupling.StrandedExactly | server/run_protocol_store.py:1033-1055 | a submission breaks the coupling if and only if the batch ends the Run and then writes a status that needs a lease |
| Stranding.StrandingBatch | server/run_protocol_store.py:922-988 | `run.completed` followed by `run.started` in one batch succeeds on any live lease and leaves the Run running without one |
| Stranding.StrandedForever | server/run_protocol_store.py:375-410 | such a Run keeps its status in every later history: it is never claimed, recovered, failed or cancelled |
| Stranding.LateTextBatch | server/run_protocol_store.py:798-866 | `run.completed` followed by text in one batch succeeds on any live lease, keeps the coupling, and leaves a message without that text |
| Stranding.UnsettlingBatch | server/run_protocol_store.py:922-988 | `run.failed` followed by `run.paused` succeeds, keeps the coupling, and leaves the fire waiting for a retry while its attempt is only paused |
| Stranding.OverlappingAttempts | server/automation_scheduler.py:74-216 | the next enqueue then starts another attempt beside the paused one |
| Paging.PageIsNext | server/run_protocol_store.py:737-762 | a page asked for with the (epoch, sequence) of the last row read is exactly the next rows of the Run's log |
| Paging.PagingIsComplete | server/run_protocol_store.py:737-762 | following the cursor from (0,0) while the log grows, the pages concatenated are always a duplicate-free prefix of the log |
| Paging.ShortPageMeansCaughtUp | server/run_protocol_store.py:742-752 | a page shorter than its limit ends at the newest row |
| Paging.SequenceOnlyCursorSkips | server/run_protocol_store.py:753-759 | the compatibility cursor never returns a later epoch's row whose sequence is not above it |
| QueueContext.LookupNeverFails | server/run_protocol_store.py:552-557 | the search for a blocking Run always finds one |
| QueueContext.ExplainExactly | server/run_protocol_store.py:469-605 | which reason is shown when: no device, none able, none seen in ninety seconds, all full, or the first Run in the way |
| QueueContext.BlockedMeansUnclaimable | server/run_protocol_store.py:525-600 | when a blocking Run is named, no online device that was considered can select this Run at that instant |
| QueueContext.BlockedRunIsNotLeased | server/run_protocol_store.py:525-600 | the same in terms of the claim: it grants nothing or another Run |
| QueueContext.SaturatedIsFull | server/run_protocol_store.py:537-551 | a device the explanation calls saturated is at its parallel capacity when it claims, even after the claim's own sweep |
| QueueContext.SweepSparesLive | server/run_protocol_store.py:402-410 | the claim's sweep leaves every live lease and its Run as they are |
| Database.Database.Rollback | server/run_protocol_store.py:1059-1061 | a rollback restores every table to what it was when the transaction began |
| RunProtocolStore.KeepCurrent | server/run_protocol_store.py:832-833 | the trace filter drops exactly earlier plans and todos |
| RunProtocolStore.ReadOutput | server/run_protocol_store.py:807-835 | the loop over one epoch's events computes the fold the message invariants are about |
| RunProtocolStore.CommitTerminalOutput | server/run_protocol_store.py:798-885 | the message is inserted once and the fire settled in the same step |
| RunProtocolStore.ServerTerminal | server/run_protocol_store.py:350-372 | a Run ended by the Server gets the message of its current epoch |
| RunProtocolStore.RecoverRun | server/run_protocol_store.py:375-399 | recovery in place equals its function; Recovery.ExpiryRecovers and RevocationRecovers say what comes of it |
| RunProtocolStore.SweepIsListed | server/run_protocol_store.py:402-410 | listing the doomed leases first and then dropping them equals testing each as it is reached |
| RunProtocolStore.Sweep | server/run_protocol_store.py:402-410 | the sweep loop drops every doomed lease and recovers its Run |
| RunProtocolStore.ExpireLeases | server/run_protocol_store.py:402-410 | the expiry sweep of one owner |
| RunProtocolStore.RevokeDevice | server/run_protocol_store.py:321-347 | revocation revokes all the device's leases and recovers their Runs |
| RunProtocolStore.ScopeConflicts | server/run_protocol_store.py:451-466 | the loop answers the conflict query, which Workspaces.ConflictsExactly puts in terms of the columns |
| RunProtocolStore.PickRun | server/run_protocol_store.py:636-651 | the candidate loop returns the first eligible Run |
| RunProtocolStore.GrantLease | server/run_protocol_store.py:652-663 | the grant writes the Run's new epoch and inserts the lease at that epoch |
| RunProtocolStore.LeaseRun | server/run_protocol_store.py:607-673 | the whole claim, its sweep included, equals its function |
| RunProtocolStore.RenewLease | server/run_protocol_store.py:690-713 | a renewal of a lease that is over raises and leaves no trace of the expiry it wrote |
| RunProtocolStore.ApplyEvent | server/run_protocol_store.py:922-988 | each branch in place equals its function; EventEffects.EventTells says what each kind writes |
| RunProtocolStore.CommitEvent | server/run_protocol_store.py:1038-1055 | inserting and applying one event, and closing the lease on a terminal one |
| RunProtocolStore.SubmitEvent | server/run_protocol_store.py:1002-1055 | one pass of the loop: every check in order, then commit, repeat or refusal |
| RunProtocolStore.SubmitEvents | server/run_protocol_store.py:991-1062 | the loop with its rollback equals the function: a refused batch leaves no row behind |
| RunProtocolStore.RequestCancel | server/run_protocol_store.py:1065-1103 | cancel in place equals its function |
| RunProtocolStore.RequestPause | server/run_protocol_store.py:1112-1150 | pause in place equals its function |
| RunProtocolStore.RequestResume | server/run_protocol_store.py:1153-1211 | resume in place equals its function |
| RunProtocolStore.AnswerUser | server/run_protocol_store.py:1214-1247 | an answer is queued only for a question this Run asked while it waits |
| AutomationScheduler.FinishRun | server/automation_scheduler.py:219-251 | settling in place equals its function; Settlement.EndingSettlesExactly says what comes of it |
| AutomationScheduler.CreateTurn | server/business_store.py:309-373 | a turn creates its Run once and returns it again under the same key and hash |
| AutomationScheduler.EnqueueAutomation | server/automation_scheduler.py:74-216 | enqueueing in place equals its function, rollback included |
| AutomationScheduler.IgnoreFire | server/routers/business.py:1030-1048 | ignoring in place equals its function |
| AutomationScheduler.EnqueueListed | server/automation_scheduler.py:296-337 | the loop over listed rows goes on after a failure and counts what was enqueued |
| AutomationScheduler.ScanOnce | server/automation_scheduler.py:286-338 | due automations first, then due retries |
| AutomationScheduler.ScanNeverFails | server/automation_scheduler.py:318-337 | a retry scan never meets an exhausted fire or a conflicting key and keeps every fire coupled |
| LocalAgent.MaxSequence | backend/run_transport.py:258-261 | no queued row of the epoch has a sequence above the one allocation starts from |
| LocalAgent.FlushRows | backend/run_transport.py:307-312 | a flush sends a front of the leased epoch's queue, at most 100 rows, and never nothing if something is queued |
| LocalAgent.AppendExactly | backend/run_transport.py:240-288 | exactly when an event is taken into the queue, as which row |
| LocalAgent.AnswerExactly | backend/run_transport.py:320-366 | every answer to a flush: what is deleted, what is recorded, what fences the Run |
| LocalAgent.LeaseRowsExactly | backend/run_transport.py:180-213 | which lease row a grant, a renewal and a clean-up leave |
| LocalAgent.PruneLog | backend/run_transport.py:354-357 | pruning one epoch leaves every other epoch's queue as it was |
| LocalAgent.PruneSuffix | backend/run_transport.py:354-357 | an ACK cuts a contiguous queue exactly at the acknowledged sequence |
| LocalAgent.FlushDeletesOnlyAcked | backend/run_transport.py:299-370 | a whole flush deletes only rows the Server acknowledged for their own epoch, whatever mix of answers it gets |
| LocalAgent.ArchiveKeeps | backend/local_agent_store.py:71-81 | every superseded row is in the archive afterwards |
| LocalAgent.DropArchivedKeeps | backend/local_agent_store.py:82-86 | only superseded rows that are archived leave the queue |
| LocalAgent.DropArchivedLog | backend/local_agent_store.py:57-86 | retiring touches neither the current epoch nor any other Run |
| LocalAgentStore.LocalAgentStore.RetireSupersededWal | backend/local_agent_store.py:57-86 | archive and delete in place, with the number of rows moved |
| LocalAgentStore.LocalAgentStore.RecordLease | backend/run_transport.py:180-213 | a grant that moves backwards is refused; any other replaces the lease row and retires older epochs |
| LocalAgentStore.LocalAgentStore.AppendEvent | backend/run_transport.py:240-288 | all refusals in order, then the next sequence, one row and one fresh id |
| LocalAgentStore.LocalAgentStore.MarkTransportError | backend/run_transport.py:291-296 | fencing changes the lease's status and nothing else |
| LocalAgentStore.LocalAgentStore.FlushWal | backend/run_transport.py:299-370 | the loop over leases equals the fold of the answers, and its counters are the rows deleted and the rows left |
| LocalAgentStore.LocalAgentStore.RenewLease | backend/run_transport.py:373-394 | a refusal fences at once, a lost answer only within five seconds of the deadline, a good answer overwrites ACK and deadline |
| LocalAgentStore.LocalAgentStore.ClearCompletedTransport | backend/local_agent_store.py:680-689 | only ended leases without queued rows are forgotten |
| LocalAgentStore.LocalAgentStore.InitDb | backend/local_agent_store.py:253-263 | the start-up pass retires below every recorded epoch |
| RunWorkerLeader.HolderKeepsLock | backend/local_agent_store.py:266-301 | from a successful acquisition to its deadline every other holder is refused, whatever others do |
| RunWorkerLeader.SnapshotIsHolders | backend/local_agent_store.py:304-313 | a published snapshot always is the current holder's own |
| RunWorkerLeader.AcquireExactly | backend/local_agent_store.py:266-301 | a holder gets the lock exactly if no other one's deadline is ahead, for at least five seconds |
| RunWorkerLeader.ReleasedIsFree | backend/local_agent_store.py:334-341 | a lock let go is free at once |
| RunWorkerLeader.LeaderRow.AcquireRunWorkerLeader | backend/local_agent_store.py:266-301 | acquire, renew or refuse in place |
| RunWorkerLeader.LeaderRow.PublishRunWorkerSnapshot | backend/local_agent_store.py:304-313 | only the live holder publishes |
| RunWorkerLeader.LeaderRow.ReleaseRunWorkerLeader | backend/local_agent_store.py:334-341 | only the holder releases |
| TransportServer.ElsewhereKeepsInv | server/run_protocol_store.py:607-1247 | no transaction of any other party disturbs what holds between this device and the Server |
| TransportServer.ClaimKeepsInv | server/run_protocol_store.py:652-673 | a claim by this device opens an epoch it has never produced for |
| TransportServer.CommittedRowRepeats | server/run_protocol_store.py:1021-1032 | a row sent again is recognised and changes nothing |
| TransportServer.NextRowIsNew | server/run_protocol_store.py:1017-1020 | the next unsent row clashes with no committed row, by id or by sequence |
| TransportServer.SliceLands | server/run_protocol_store.py:999-1055 | a request however late either lands contiguously or meets a lease that is over |
| TransportServer.CompliantNeverGaps | server/run_protocol_store.py:1015-1039 | no request of a compliant device is ever answered with a gap, a hash mismatch or a reused sequence, and the ACK reaches the last row sent |
| TransportServer.ServeFlushKeepsInv | server/run_protocol_store.py:991-1062 | serving any request in the bag, at any time and any number of times, keeps the Server's log a prefix of what was produced |
| TransportServer.ServeRenewalKeepsInv | server/run_protocol_store.py:690-713 | a renewal answer never exceeds the high water |
| TransportAgent.RetireLosesNothing | backend/local_agent_store.py:57-86 | retiring keeps every produced event queued, archived or committed |
| TransportAgent.NextSequenceIsNext | backend/run_transport.py:258-264 | the next sequence is one more than what was produced, after any flush, prune or renewal |
| TransportAgent.AppendedKeepsInv | backend/run_transport.py:240-288 | an appended event extends the produced log and the queue together |
| TransportAgent.CutIsSound | backend/run_transport.py:307-318 | a request is a slice that starts at or below the Server's ACK + 1 |
| TransportAgent.PrunedIsCommitted | backend/run_transport.py:354-357 | every row an ACK deletes is committed with the same envelope |
| TransportAgent.AckReachesFront | backend/run_transport.py:346-350 | the answer to the flush in progress never moves the ACK backwards and covers all it sent |
| TransportAgent.GetFlushReplyKeepsInv | backend/run_transport.py:346-366 | recording an ACK leaves a contiguous queue that starts at or below ACK + 1 |
| TransportAgent.GetLeaseKeepsInv | backend/run_transport.py:180-213 | recording a grant, in or out of order, keeps all of it |
| TransportAgent.AllocationExactly | backend/run_transport.py:258-264 | allocation is right if and only if the local high water does not pass what was produced and, with nothing queued, equals it |
| TransportAgent.StaleAckExactly | backend/run_transport.py:358-361 | an answer of an older epoch written to a newer lease leaves allocation right exactly in those cases |
| TransportAgent.RenewalSafeExactly | backend/run_transport.py:389-392 | a renewal answer is harmless exactly if no flush answer overtook it; otherwise the next event reuses a committed sequence |
| TransportAgent.RestartKeepsInv | backend/local_agent_store.py:253-263 | a restart forgets requests in progress and loses no event |
| TransportAgent.MoveKeepsInv | backend/run_transport.py:180-394 | every move of the device, the Server or anyone else keeps the joint invariant |
| EndToEnd.NothingIsEverLost | backend/run_transport.py:240-370 | over every run each appended event is queued, archived or committed as it was, and the Server's log of every Run and epoch is a prefix of what was produced |
| EndToEnd.WalIsContiguousAlways | backend/run_transport.py:257-366 | over every run the queue of a leased epoch is contiguous, starts at or below the Server's ACK + 1, and allocation continues it |
| EndToEnd.FlushesNeverGap | server/run_protocol_store.py:1015-1039 | over every run a request is accepted or its lease is over, and the ACK is never below the one the device had |
| EndToEnd.WrongWaterIsRefused | server/run_protocol_store.py:1017-1039 | with nothing queued, an event allocated from any other high water is always refused |
| Overtaken.OvertakenRenewalReusesSequence | backend/run_transport.py:389-392 | a run of eight steps after which a renewal answer still in flight would make the device reuse a committed sequence |
| AutoExecution.Normalized | server/work_item_auto_scheduler.py:78-106 | accepted policies allow 1 to 10 attempts, and name a device exactly when routed to one |
| AutoExecution.LatestOf | server/work_item_auto_scheduler.py:323-327 | the Run found is the version's latest, and none is found only if there is none |
| AutoExecution.DecisionIsSound | server/work_item_auto_scheduler.py:328-366 | a trigger either only changes what is shown or starts exactly the next attempt after an ended one |
| AutoExecution.StartIsNewRun | server/work_item_auto_scheduler.py:377-437 | the turn of an attempt always creates a new Run: its key was never used |
| AutoExecution.TriggerKeepsChain | server/work_item_auto_scheduler.py:290-454 | a trigger keeps the attempt chain |
| AutoExecution.ConfigureKeepsChain | server/work_item_auto_scheduler.py:109-166 | a changed policy starts a version with no Run of its own |
| AutoExecution.ChainAlways | server/work_item_auto_scheduler.py:290-454 | over any history of transactions, triggers and policy changes with a monotone clock, whatever devices send, the chain holds for every version |
| AutoExecution.ChainBelow | server/work_item_auto_scheduler.py:364-366 | below any attempt of any version lies every earlier one, all ended |
| AutoExecution.AttemptOnce | server/work_item_auto_scheduler.py:377-400 | no attempt of a version has two Runs |
| AutoExecution.AttemptsOfCurrentVersion | server/work_item_auto_scheduler.py:323-449 | over the same histories the Runs of the current version are exactly attempts 1..last_attempt, at most max_attempts, each retrying the one before, all but the last ended |
| PolicyOutcomes.TriggerExactly | server/work_item_auto_scheduler.py:290-454 | every outcome of a trigger, told from the newest Run of the version: what is shown, and when the next attempt starts on which Run |
| PolicyOutcomes.NormalizedExactly | server/work_item_auto_scheduler.py:78-106 | which policies are accepted, with which numbers |
| PolicyOutcomes.ConfigureExactly | server/work_item_auto_scheduler.py:109-166 | a change makes the next version with no attempt of its own, and anything else changes nothing |
| WorkItemAutoScheduler.PolicyTable.ConfigurePolicy | server/work_item_auto_scheduler.py:109-166 | configuring in place equals its function |
| WorkItemAutoScheduler.PolicyTable.StartAttempt | server/work_item_auto_scheduler.py:367-449 | gate, turn and counters in one step |
| WorkItemAutoScheduler.PolicyTable.TriggerOne | server/work_item_auto_scheduler.py:290-454 | the trigger in place equals its function |
| ResourceLocks.KeysAreSorted | backend/agent/run_resources.py:47-56 | the locking order is the sorted order of the keys, one class of resource after the other; ToolExclusion.KeyMeansNeed says which calls share one |
| ResourceLocks.MoveKeepsInv | backend/agent/run_resources.py:80-102 | every step, cancellation included, keeps: a Run holds exactly a prefix of its list, waits in exactly one queue, and is shown truthfully |
| ResourceLocks.ReleaseFrees | backend/agent/run_resources.py:99-102 | releasing frees exactly what was held and leaves every queue alone |
| ResourceLocks.SomeoneMoves | backend/agent/run_resources.py:80-102 | following holders from any unfinished Run ends at one that can move |
| ResourceLocks.NeverStuck | backend/agent/run_resources.py:80-102 | deadlock freedom: while a Run is unfinished some Run has a step other than giving up |
| ResourceLocks.EveryScheduleEnds | backend/agent/run_resources.py:80-102 | no schedule is longer than the steps its Runs have left |
| ResourceLocks.EverybodyFinishes | backend/agent/run_resources.py:80-102 | for any set of requests, a schedule that cannot go on has finished every Run, with every lock free and nothing shown as held |
| ResourceLocks.HeldIsPrefixAndExclusive | backend/agent/run_resources.py:80-102 | no key is ever held by two Runs |
| ToolExclusion.NeverTogether | backend/agent/run_resources.py:47-102 | at no moment of any schedule are two calls inside that both write in one workspace of one owner, both use one owner's browser, or both use the host |
| ToolExclusion.NeedMeansKey | backend/agent/run_resources.py:47-56 | two such calls ask for a common key |
| ToolExclusion.KeyMeansNeed | backend/agent/run_resources.py:47-56 | if owners' names hold no colon, two calls share a key if and only if they have such a need in common |
| ToolExclusion.ColonMakesStrangersShare | backend/agent/run_resources.py:51 | with a colon in a name two owners can share a workspace key |
| ResourceLocks.RunResources.TryNext | backend/agent/run_resources.py:89-98 | the loop body up to its await |
| ResourceLocks.RunResources.WakeUp | backend/agent/run_resources.py:93-98 | a woken waiter takes its lock |
| ResourceLocks.RunResources.Leave | backend/agent/run_resources.py:99-102 | the release loop runs from the last key acquired to the first |
| ResourceLocks.RunResources.Abandon | backend/agent/run_resources.py:92-102 | a cancelled wait leaves its queue and releases all it held |
| AssetObjects.PartSizesSumUp | server/asset_object_store.py:195-202 | the required part sizes add up to the expected size |
| AssetObjects.ChunkFits | backend/local_agent_core.py:353-363 | every chunk the client reads has the size the Server requires of it |
| AssetObjects.PerformKeepsSound | server/asset_object_store.py:64-97 | every operation keeps every version row matching the size and digest of the object it names, and part rows describing their files |
| AssetObjects.ChunkIsAccepted | server/asset_object_store.py:192-231 | a chunk is accepted whether or not it was sent before, and is then held |
| AssetObjects.SendsAccumulate | server/asset_object_store.py:192-231 | chunks sent in any order with any repeats are exactly the chunks held |
| AssetObjects.ChunksAssemble | server/asset_object_store.py:251-258 | chunks put one after the other are the front of the file |
| AssetObjects.CompletionStoresFile | server/asset_object_store.py:234-296 | with every chunk held, completion stores exactly the file and one version row for it |
| UploadTrips.UploadTrip | server/asset_object_store.py:100-298 | a non-empty file, from `begin_upload` on: known content is delivered at once; otherwise sending what is missing, in any order with repeats, and completing delivers the file if and only if the upload begun holds no wrong part, and a fresh one holds none |
| UploadTrips.DuplicateDelivers | server/asset_object_store.py:123-150 | a deduplicated start leaves a version whose object is the file, current on the asset |
| UploadTrips.CompletionExactly | server/asset_object_store.py:234-296 | an active upload of any file, the empty one included, completes if and only if every part is held and every held part is the file's chunk, and then delivers the file |
| UploadTrips.CompletionWrites | server/asset_object_store.py:64-97 | a completion writes the next version number of the asset, the asset's columns and the upload's end, and removes exactly its part files |
| UploadTrips.BeginExactly | server/asset_object_store.py:100-189 | beginning resumes the latest upload that can go on, else reuses known content, else starts afresh |
| UploadTrips.PutExactly | server/asset_object_store.py:192-231 | exactly which parts are accepted, and what they change |
| UploadTrips.CleanupExactly | server/asset_object_store.py:362-376 | exactly the stale uploads expire, and exactly their part files go |
| UploadTrips.AbortExactly | server/asset_object_store.py:301-315 | only its owner aborts an upload that has not ended, and only its part files go |
| UploadTrips.SoundAlways | server/asset_object_store.py:64-97 | after every history of operations each version row matches the object it names and part rows describe their files |
| UploadTrips.NeverRepaired | server/asset_object_store.py:210-246 | an upload that holds a wrong part is never completed, whatever is sent, expired, aborted or begun later |
| UploadTrips.WrongPartBlocksCompletion | server/asset_object_store.py:198-217 | one wrong part of the right size is accepted and then blocks its upload for good |
| AssetObjects.CompletionIsIdempotent | server/asset_object_store.py:236-238 | completing again reports the same version and changes nothing |
| UploadTrips.EmptyPartBlocksCompletion | server/asset_object_store.py:198-202 | an upload of nothing accepts an empty part 0 and is then never completed, over any later history |
| UploadTrips.EmptyUploadExactly | server/asset_object_store.py:243-246 | an active upload of nothing completes if and only if no part was ever sent |
| AssetObjectStore.ObjectStore.PutPart | server/asset_object_store.py:192-231 | all refusals in order, then file and row |
| AssetObjectStore.ObjectStore.AssembleParts | server/asset_object_store.py:249-258 | the nested copy loops produce the concatenation and its size |
| AssetObjectStore.ObjectStore.CompleteUpload | server/asset_object_store.py:234-298 | completion in place equals its function, the object that stays behind when the asset is gone included |
| AssetObjectStore.ObjectStore.CommitVersion | server/asset_object_store.py:64-97 | the version row and the asset's columns |
| AssetObjectStore.ObjectStore.CleanupExpired | server/asset_object_store.py:362-376 | every stale upload expires with its files |
| AssetObjectStore.ObjectStore.SendMissing | backend/local_agent_core.py:349-363 | the client's loop sends what is missing, so that in the end no part is |
| Relay.HandedAtMost | server/relay_store.py:229-263 | an event is handed out at most max_attempts times over any history, and its counter is that number |
| Relay.EndedStayEnded | server/relay_store.py:266-287 | ended events stay as they ended; an acknowledged event's retention clock never moves and a dead letter's is restarted at most once |
| Relay.CleanupSparesLive | server/relay_store.py:290-329 | cleanup never touches a pending or leased event |
| Relay.CleanupCaps | server/relay_store.py:310-328 | after cleanup an owner has at most the cap of ended events |
| Relay.CleanupKeepsNewest | server/relay_store.py:315-328 | what the cap removes is older than everything it keeps |
| Relay.StepRows | server/relay_store.py:162-287 | one operation moves every row by one legal step, and new rows are new |
| RelayOutcomes.CreateExactly | server/relay_store.py:162-200 | one event per service and key, and a repeat is told whether it differs |
| RelayOutcomes.LeaseExactly | server/relay_store.py:229-263 | the oldest ready events are handed out, at most a page of them; a lease that ran out goes back or dies by its attempts; nothing else moves |
| RelayOutcomes.AckExactly | server/relay_store.py:266-287 | exactly the holder of the token, in time, ends an event, as it says |
| RelayOutcomes.CleanupByAge | server/relay_store.py:290-309 | an event ended before the retention window goes, and of one that stays only an old payload is dropped |
| RelayStore.RelayStore.CreateEvent | server/relay_store.py:162-200 | creation is idempotent per service and key and reports a conflicting repeat |
| RelayStore.RelayStore.LeaseEvents | server/relay_store.py:229-263 | lapsed leases are put back or die, then the page is leased row by row |
| RelayStore.RelayStore.Acknowledge | server/relay_store.py:266-287 | only the holder of the token, in time, ends an event |
| RelayStore.RelayStore.CleanupTerminalEvents | server/relay_store.py:290-332 | the loop over owners equals the cap on the whole table |

## Left out

- Ed25519 challenges, tokens, secret storage, HTTP, FastAPI routes and user interfaces: a principal is given, and the network is a bag of requests.
- JSON encoding and SHA-256: a digest is the value it covers, and a payload is the keys the Server reads.
- Columns nothing decides on: updated_at and version counters, started_at and ended_at, checkpoints, session and work item status written at the end of a Run, usage details, notifications and audit rows.
- A Run's soft deletion, and the order of `created_at`: Runs are listed in the order their rows were created.
- The device status `pending`: it never holds a token, so a registered device counts as active from its first authentication.
- Several accounts in one Local Agent database, and the `attempts` counters of its queue.
- The Local Agent's flush answers one request at a time per Run; the joint model lets it give up on one at any moment. An answer that arrives after the Run was claimed again, or a renewal answer that a flush answer overtook, is outside the end-to-end runs; `StaleAckExactly` and `RenewalSafeExactly` say what such an answer does.
- Messages that are not an assistant's, or belong to no Run; whether an account may post on a Run and whether its idempotency key was used before: a post in the model is one that inserts a row.
- AutomationScheduler.ScanOnce: takes the due automations and the due retries as arguments; what the two queries select, and that next_run_at is advanced, is not modelled.
- AutomationScheduler.IgnoreFire: check and update are one step; Outcomes.IgnoredLateExactly says what a later update does.
- Outcomes.IgnoreKeeps: likewise for the one step.
- RelayStore.RelayStore.Acknowledge: check and update are one step, while the source's update goes by id alone.
- Relay.EndedStayEnded: for acknowledgements in one step; an update that comes after its event ended otherwise would overwrite that end.
- `next_run_at`, time zones and daylight saving; the gate of the work item scheduler, its item status and its verified deliverables are inputs of a trigger.
- Asset downloads, grants, retention of old versions and abandoned part files of a crashed write.
- The relay's rate window, its health snapshot and service tokens.
- AssetObjectStore.ObjectStore.SendMissing: does not model a request that fails half-way; a later attempt starts from whatever parts are held.
- RelayStore.RelayStore.LeaseEvents: takes the page the query returned as an argument, because rows created at the same instant may come in any order; Relay.IsPage says which pages are possible.
- LocalAgentStore.LocalAgentStore.FlushWal: takes the lease rows in the order they were read and the network's answers as arguments.
- RunResources: fairness among waiters woken at once is that of the first-come queue; threads outside the event loop are not modelled.
