# AgentCall: the durable protocols, modelled and proved

AgentCall lets one person's agent call another's through a relay. This project models the parts that
must stay right while processes stop, messages repeat and clocks misbehave, and proves what they promise:

- **The relay's durable mailbox** (`mailbox_*.dfy`, `lifecycle.dfy`, `handle_do.dfy`). `HandleDO` keeps task
  records, a FIFO queue index, a due-time index, a dedupe index, an active pointer, three quota counters and an
  audit outbox. Each storage transaction is a function on `Store`; `RelayObject.HandleDO` is the same object in the
  form it is written, with fields that are put and deleted one at a time, and each of its methods is proved to be
  that transaction. Runs interleave the transactions with the continuations that wait for the database (authority
  checks, finishing steps, audit deliveries), which may come late, fail, or vanish in a crash. One invariant says
  that every index and counter is what a scan of the stored tasks would say; the guarantees follow from it.
- **Audit export and retention** (`audit_*.dfy`, `ordered.dfy`). Paged reads of two merged ledgers under a signed
  cursor, while rows are appended and deleted between any two database reads; completion receipts,
  acknowledgements, legal holds, and which rows may be deleted.
- **Encryption-key epochs** (`key_ring*.dfy`). Any number of processes load, rotate, publish and decrypt over one
  directory of key files with lock directories; each file operation is a step, and a process may stop before any of
  them.
- **Signed encodings** (`unicode.dfy`, `canonical.dfy`, `transcripts.dfy`, `base64url.dfy`). UTF-16 and UTF-8, the
  canonical byte encoding, every transcript built on it, and strict base64url.
- **Execution journal and replay store** (`execution_*.dfy`, `replay_*.dfy`). Lock-serialized records that keep a
  call from being executed, and a request from being taken, twice.
- **Credential recovery** (`recovery*.dfy`). An installation and the relay together, over a network that loses,
  delays and repeats, with other parties issuing, redeeming and rotating at the same time.

Conventions. Hashes are injective and signatures unforgeable: a digest stands for what was hashed, and a token
verifies exactly if it was issued. Times are integers; storage keys built from them sort as numbers, which holds for
times from 0 up to 10^16. Secrets and ids that the source draws at random do not repeat. A database batch and a
storage transaction with no other wait inside are one step.

Five findings, each with a lemma:

- A denial after an authority check writes the record that was read before the check
  (`apps/relay/src/do.ts:567-595`), so a call that was accepted and requeued in between goes back to an earlier
  phase. `MailboxGuarantees.DenialMovesPhaseBack` says exactly when, and `MailboxRegression.PhaseCanGoBack` shows a
  run. Every other step keeps the phase from going back.
- A requeued call keeps its lapsed lease (`apps/relay/src/do.ts:1151-1155`), and a start is accepted from whoever holds
  the lease on the record (lines 692-700). The active pointer therefore does not keep durable calls from running side
  by side: every started call is the active one if and only if no start was accepted for a call that waits again
  (`MailboxOverlap.StartedCallsAreActive`), and `MailboxOverlap.TwoCallsCanBeStarted` shows a run with two started.
- A rotation evicts the oldest retained key (`packages/cli/src/keys.ts:415`) before it refuses because the current
  epoch was not published (line 417). `KeyRingRefusal.RefusedRotationEvictsExactly` says for which retained copies and
  jobs the refused rotation has evicted, and `KeyRingRefusal.UnpublishedRotationEvicts` shows a run.
- A load lists the epochs before it reads them (`packages/cli/src/keys.ts:485-516`). If another process rotates in
  between, it may find every epoch it listed retired, and fails for want of an active one. There always is one, and its
  key is in place: `KeyRingErrors.ThereIsASuccessor`. `KeyRingErrors.ErrorsAreExact` says exactly when a load fails,
  and `KeyRingErrors.SuccessorCanBeMissed` shows a run.
- `canonicalEncode` says no two value lists share their bytes (`packages/shared/src/canonical.ts:4-7`). A lone surrogate
  and U+FFFD do: `Canonical.LoneSurrogateCollides`. `Canonical.EncodingDistinguishes` says exactly which lists
  coincide, and on the well-formed strings the schemas admit none do.

## Model

| member | source | states |
|---|---|---|
| `Lifecycle.FramesReachTheirMaximum` | apps/relay/src/call-lifecycle.ts:43-50 | however peer frames repeat or overtake each other, a live call ends at the highest phase it was asked for, and an ended call does not move |
| `Lifecycle.FirstEndingWins` | apps/relay/src/call-lifecycle.ts:52-66 | the first ending stands against later endings, frames and expiry |
| `Lifecycle.ExpiresAtItsDeadline` | apps/relay/src/call-lifecycle.ts:61-66 | a live call expires at its deadline and not before |
| `MailboxInvariant.ReleaseNeverClamps` | apps/relay/src/do.ts:451-468 | a record that still holds quota is counted in every counter it will be taken from, so the clamps at zero never act |
| `MailboxInvariant.AdmitKeeps` | apps/relay/src/do.ts:487-530 | admission keeps every index and counter equal to a scan of the tasks |
| `MailboxInvariant.CancelKeeps` | apps/relay/src/do.ts:350-396 | so does a cancellation |
| `MailboxInvariant.RevokeKeeps` | apps/relay/src/do.ts:567-595 | so does a denial that writes a record read earlier |
| `MailboxInvariant.LeaseHeadKeeps` | apps/relay/src/do.ts:657-681 | so does leasing the head of the queue, or dropping it if it is stale |
| `MailboxInvariant.RebindKeeps` | apps/relay/src/do.ts:597-626 | so does rebinding a started call to a new listener |
| `MailboxInvariant.RecoverLeaseKeeps` | apps/relay/src/do.ts:1142-1177 | so does lease recovery, which requeues at most twice and then fails the call |
| `MailboxInvariant.ExpireTaskKeeps` | apps/relay/src/do.ts:760-840 | so do expiry, retention and purge |
| `MailboxInvariant.OnFrameKeeps` | apps/relay/src/do.ts:1020-1133 | so does every listener frame, including one for a requeued call whose old lease is still on its record |
| `MailboxInvariant.FinishKeeps` | apps/relay/src/do.ts:702-710 | so does the finishing step, run with the record an earlier frame left |
| `MailboxEffects.AdmissionEffect` | apps/relay/src/do.ts:487-530 | an admitted call waits for the time asked for, at most 72 hours, and is kept 24 hours longer; it takes one slot and its bytes, enters the three indices once, and leaves everything else alone; any other verdict writes nothing |
| `MailboxEffects.LeaseEffect` | apps/relay/src/do.ts:657-678 | nothing is leased beside an active call; otherwise the head of the queue gets a lease that counts one attempt more, with nothing else of its record changed, and a stale head only loses its row |
| `MailboxEffects.StartEffect` | apps/relay/src/do.ts:842-883 | starting fixes the deadline at the earlier of expiry and allotted time, re-keys the due row, and reports an acceptance only if none was reported; starting again does nothing |
| `MailboxEffects.CancelEffect` | apps/relay/src/do.ts:350-390 | a cancellation by the caller ends exactly its own waiting calls: one slot and all ciphertext given back, no other record, counter or row touched |
| `MailboxEffects.DenialEffect` | apps/relay/src/do.ts:567-595 | a denial ends exactly a call that is still queued, in the same exact way |
| `MailboxEffects.RecoveryEffect` | apps/relay/src/do.ts:1142-1177 | a lapsed lease requeues the call at its old place with nothing else changed, or ends it as undelivered on the third attempt |
| `MailboxEffects.TimeoutEffect` | apps/relay/src/do.ts:805-828 | an overdue live call ends as failed if it had started and as expired if not |
| `MailboxEffects.NotDueEffect` | apps/relay/src/do.ts:769-770 | before its deadline an expiry does nothing to a call |
| `MailboxEffects.EndingFrameEffect` | apps/relay/src/do.ts:1040-1133 | a cancelled, rejected or outcome frame ends the call as it says, keeps only the answer's bytes, and leaves queue and active pointer to the finishing step |
| `MailboxEffects.RetentionEffect` | apps/relay/src/do.ts:771-790 | at the end of its execution time an ended call loses its answer and those bytes, and keeps its ending |
| `MailboxEffects.PurgeEffect` | apps/relay/src/do.ts:789-804 | a purge removes the record and every row that mentions it |
| `MailboxFrames.OnlyTheHolderIsHeard` | apps/relay/src/do.ts:692-700 | a frame counts if and only if its call is live and, if durable, held under that lease by that session; any other changes nothing, and an ending frame of the holder ends the call |
| `MailboxFrames.AcceptEffect` | apps/relay/src/do.ts:842-890 | the first acceptance is recorded and reported, a later one means nothing |
| `MailboxFrames.SyncArrival` | apps/relay/src/do.ts:997-1015 | a call that waits on a connection is one record, one due row and one event, and neither quota nor queue |
| `MailboxFrames.SyncStart` | apps/relay/src/do.ts:842-890 | starting a call that waits on a connection keeps its deadline |
| `MailboxFrames.SyncEnding` | apps/relay/src/do.ts:1029-1133 | such a call ends as its frame says, touches neither quota nor queue, and stays until its deadline |
| `MailboxFrames.SyncExpiry` | apps/relay/src/do.ts:829-838 | at its deadline it is gone, and reported as late if it had not ended |
| `MailboxFrames.RebindEffect` | apps/relay/src/do.ts:597-626 | a started active call gets a new lease for the new session until its deadline, as the same attempt, and nothing else changes |
| `MailboxFrames.FinishEffect` | apps/relay/src/do.ts:702-708 | the finishing step of a durable call takes its queue row and the active pointer if it is there, and that of a synchronous one does nothing |
| `MailboxFrames.FinishFreesTheLine` | apps/relay/src/do.ts:702-710 | in any run, after a finishing step no queue row and no active pointer names the call, and if the pointer did, repeated dispatches reach every queued call |
| `MailboxContinuations.ContinuationsComeAndGo` | apps/relay/src/do.ts:628-760 | a record is remembered exactly from the authority check of the next call in line until its denial, and from an ending frame until its finishing step; a delivery until it succeeds or fails; nothing longer than the process |
| `MailboxContinuations.CallersCancel` | apps/relay/src/do.ts:350-396 | at any point of a run the caller, and nobody else, cancels a call that was not accepted, and any other request changes nothing |
| `MailboxContinuations.DenialsEnd` | apps/relay/src/do.ts:567-595 | at any point of a run a denial ends the call it was asked about if that call still waits, and nothing else |
| `MailboxAlarm.AlarmKeeps` | apps/relay/src/do.ts:1196-1208 | an alarm keeps every index and counter equal to a scan of the tasks |
| `MailboxAlarm.AlarmExact` | apps/relay/src/do.ts:1196-1208 | one alarm expires exactly the earliest overdue calls of a full scan, at most 24, each in its own way, and leaves every other record alone |
| `MailboxAlarm.FirstDueIsEarliest` | apps/relay/src/do.ts:1179-1184 | the first row of the due index is the earliest deadline of all stored tasks, and the index is empty only if there are none |
| `MailboxTheorems.StepKeeps` | apps/relay/src/do.ts:350-1228 | every step of a run keeps the indices, the audit trail, the database order and what waiting continuations remember |
| `MailboxGuarantees.QuotaConservation` | apps/relay/src/do.ts:451-530 | in every reachable state the outstanding and per-caller counters count the live durable calls, and the byte counter is the sum over all stored ones |
| `MailboxGuarantees.OnlyTheActiveCallIsLeased` | apps/relay/src/do.ts:657-710 | queued and leased calls have their queue row, a leased call is the one the active pointer names, and that pointer never names a queued or missing call |
| `MailboxGuarantees.LeasesAreCounted` | apps/relay/src/do.ts:666-672 | in every reachable state a lease is the first, second or third of its call, a requeued call has had at most two, and a leased or started call has one |
| `MailboxGuarantees.LeaseIsFifo` | apps/relay/src/do.ts:657-676 | a lease goes to the oldest queued call, by created_at and then call id |
| `MailboxGuarantees.QueuedCallsAreReached` | apps/relay/src/do.ts:657-681 | stale rows at the head of the queue cannot strand a queued call: repeated dispatches lease it or one before it |
| `MailboxGuarantees.ResubmissionFindsItsTask` | apps/relay/src/do.ts:487-500 | a message id has at most one stored task; resubmitting finds it, another envelope under the same id is refused, and an entry without a task never arises |
| `MailboxGuarantees.AdmittedExactly` | apps/relay/src/do.ts:498-510 | a submission is admitted if and only if its message id is new, fewer than 100 durable calls are live and fewer than 10 of its caller, and all stored bytes with its own stay within 32 MiB |
| `MailboxGuarantees.NothingIsForgotten` | apps/relay/src/do.ts:725-758 | once an audit event is recorded it is in the outbox or in the database for good, whatever flushes overlap, fail or crash |
| `MailboxGuarantees.AuditTrailIsComplete` | apps/relay/src/do.ts:842-896 | each call has exactly one submit event, and exactly one ending event if and only if it ended; a live call has exactly one accept event if and only if it left its first phase, and no call ever has two |
| `MailboxGuarantees.DeliveryIsOnceAndInOrder` | apps/relay/src/do.ts:718-758 | the database holds no event twice, and each call's events in lifecycle order with nothing earlier missing |
| `MailboxFlush.FlushDelivers` | apps/relay/src/do.ts:725-758 | an undisturbed delivery moves the 24 earliest intents of the outbox, or all if there are fewer, to the end of the ledger, and nothing else |
| `MailboxFlush.BacklogDrains` | apps/relay/src/do.ts:725-758 | n deliveries empty an outbox of up to 24 n intents, and all of it is in the database |
| `MailboxGuarantees.StepRecord` | apps/relay/src/do.ts:842-897 | any step leaves a call's record alone or brings it strictly nearer to its purge (a rebind keeps the distance), keeps an ending once reached, and, unless it is a denial, never moves the phase back |
| `MailboxGuarantees.CallsComeToAnEnd` | apps/relay/src/do.ts:760-840 | a stored call is written at most eleven times until it is gone, rebinds aside |
| `MailboxGuarantees.EndingsAreFinal` | apps/relay/src/do.ts:1024-1027 | an ended call keeps its state and reason until it is purged, and a purged id never comes back |
| `MailboxGuarantees.DenialMovesPhaseBack` | apps/relay/src/do.ts:567-595 | a denial keeps the phase from going back if and only if the call's phase is still the one that was read before the authority check |
| `MailboxRegression.PhaseCanGoBack` | apps/relay/src/do.ts:567-595 | a run of six steps in which the recorded phase goes back |
| `MailboxOverlap.StartsUnattended` | apps/relay/src/do.ts:692-700 | an accepted start puts a call to work outside the active pointer if and only if the call had been requeued |
| `MailboxOverlap.StartedCallsAreActive` | apps/relay/src/do.ts:692-700 | up to any point of a run, started calls were always the active one if and only if no start had been accepted for a call that was waiting again |
| `MailboxOverlap.TwoNeedARequeuedStart` | apps/relay/src/do.ts:1142-1155 | two calls are started at once only after a requeued one was started |
| `MailboxOverlap.TwoCallsCanBeStarted` | apps/relay/src/do.ts:1142-1155 | a run of eight steps after which two durable calls are started |
| `MailboxBounds.StorageBound` | apps/relay/src/do.ts:498-520 | outstanding calls stay within 100, per caller within 10, and stored bytes within 32 MiB plus one largest outcome for each free slot, though only admission looks at the cap |
| `RelayObject.HandleDO.List` | apps/relay/src/do.ts:1201-1201 | a prefix listing with a limit returns the least keys in order |
| `RelayObject.HandleDO.ReleaseDurableQuota` | apps/relay/src/do.ts:451-468 | the three counter writes and the released mark are one quota release |
| `RelayObject.HandleDO.PersistTaskWithAudit` | apps/relay/src/do.ts:470-485 | record, due key and outbox row move together, with the quota if the record is terminal |
| `RelayObject.HandleDO.DecideAdmission` | apps/relay/src/do.ts:487-510 | the verdict on a submission, from the dedupe row first and the quota after it |
| `RelayObject.HandleDO.AdmitDurableTask` | apps/relay/src/do.ts:487-530 | the admission transaction, all of it or nothing |
| `RelayObject.HandleDO.CancelTask` | apps/relay/src/do.ts:350-396 | the cancellation transaction, applied exactly to the caller's own queued or leased calls |
| `RelayObject.HandleDO.RevokeDurableTask` | apps/relay/src/do.ts:567-595 | the denial transaction, with the record read before the check |
| `RelayObject.HandleDO.RebindActive` | apps/relay/src/do.ts:597-626 | a started call gets a fresh lease that keeps its attempt count |
| `RelayObject.HandleDO.LeaseNext` | apps/relay/src/do.ts:657-681 | the leasing transaction: the queue's first call becomes leased and active |
| `RelayObject.HandleDO.FinishDurableTask` | apps/relay/src/do.ts:702-710 | the queue row and the active pointer are released |
| `RelayObject.HandleDO.RecoverExpiredLease` | apps/relay/src/do.ts:1142-1177 | a lapsed lease requeues the call, or fails it after the third attempt |
| `RelayObject.HandleDO.RetainOrPurge` | apps/relay/src/do.ts:771-804 | an ended call first loses its answer, later every row that mentions it |
| `RelayObject.HandleDO.ExpireTask` | apps/relay/src/do.ts:760-840 | the expiry transaction, on a record read inside it |
| `RelayObject.HandleDO.ExpireDue` | apps/relay/src/do.ts:1202-1208 | the loop over listed rows stops at the first that is not due, expires each before it and drops rows whose expiry did nothing |
| `RelayObject.HandleDO.Alarm` | apps/relay/src/do.ts:1196-1208 | the loop over listed due rows keeps the invariant and does what the listing asks |
| `RelayObject.HandleDO.AdvanceCall` | apps/relay/src/do.ts:842-890 | the phase moves forward only; starting fixes the execution deadline and re-keys the due row |
| `RelayObject.HandleDO.ReceiveFrame` | apps/relay/src/do.ts:1020-1133 | what each listener frame does to the storage, and the record it hands to the finishing step |
| `RelayObject.HandleDO.DeleteDelivered` | apps/relay/src/do.ts:749-749 | what the database took leaves the outbox, and nothing that arrived meanwhile |
| `RelayObject.HandleDO.ScheduleNextAlarm` | apps/relay/src/do.ts:1179-1194 | from one due row, one record and one outbox row it picks the minimum over all deadlines, the active lease, the audit retry and the rate limiter's maintenance |
| `RelayObject.EventTable.InsertBatch` | apps/relay/src/do.ts:731-742 | an insert batch that skips event keys already present |
| `AuditSnapshot.CheckpointNamesRows` | apps/relay/src/audit.ts:205-218 | taking the same checkpoint again finds the same rows: two ids and two counts name one snapshot |
| `AuditSnapshot.CheckedPageServes` | apps/relay/src/audit.ts:220-230 | a page whose counts still match after the read was read from the complete snapshot, whatever happened in between |
| `AuditProgress.AnsweredIffIntact` | apps/relay/src/audit.ts:602-618 | a request is answered with its page if and only if no row of its snapshot was deleted by then |
| `AuditProgress.PagesAreFull` | apps/relay/src/audit.ts:621-631 | every page but the last has exactly the rows asked for, none has more, and its cursor names its last row |
| `AuditProgress.QueriesAreChecked` | apps/relay/src/audit.ts:191-203 | an export begins or goes on only with 1 to 500 rows a page and a non-empty range, and a cursor only for whom and what it was issued |
| `AuditSnapshot.StepKeeps` | apps/relay/src/audit.ts:602-686 | every append, deletion, request step and acknowledgement keeps snapshots, requests, pages and acknowledgements right |
| `AuditSnapshot.PageThenRest` | apps/relay/src/audit.ts:340-366 | a page and what its cursor leaves are together everything that was wanted |
| `AuditRetention.ExportIsExact` | apps/relay/src/audit.ts:602-640 | an export that reached its last page has served exactly the rows present when it began that lie in its range and equal what it named, each once, oldest first, organization events before roster events, by id |
| `AuditProgress.ExportCompletes` | apps/relay/src/audit.ts:602-640 | from any state, an export that no other step disturbs reaches its last page |
| `AuditProgress.ExportFreesRows` | apps/relay/src/audit.ts:602-686 | exporting everything and acknowledging it makes every row past its retention deletable, unless a hold is active or the rows have fallen behind an earlier acknowledgement |
| `AuditRetention.AcksOnlyAdvance` | apps/relay/src/audit.ts:655-686 | acknowledged ids never go back, in either ledger |
| `AuditRetention.AcknowledgementTakesEffect` | apps/relay/src/audit.ts:655-678 | an acknowledgement replaces the stored one unless it is behind it in one ledger or level in both |
| `AuditRetention.CountsSplit` | apps/relay/src/audit-retention.ts:72-105 | without a hold the eligible and unacknowledged counts split the rows before the cutoff; with one nothing is eligible |
| `AuditRetention.CountsAreExact` | apps/relay/src/audit-retention.ts:132-180 | per ledger: rows past their retention that the acknowledged export served, none under a hold, rows it did not serve, and readiness exactly if there are none of those |
| `AuditRetention.CutoffIsExact` | apps/relay/src/audit-retention.ts:184-184 | the cutoff is the policy's days, or 400, before the evaluation, and never below zero |
| `AuditProgress.SettingsTakeEffect` | apps/relay/src/audit-retention.ts:44-88 | a policy sets the days that count, a hold stops every deletion, and its release ends it |
| `AuditRetention.ReadyMeansCovered` | apps/relay/src/audit-retention.ts:132-213 | "held" if and only if a hold is active; "ready" if and only if there is an acknowledgement, no hold, and every row past its retention was served by the acknowledged export |
| `AuditRetention.RetentionSafety` | apps/relay/src/audit-retention.ts:44-88 | a row may be deleted if and only if it is older than the policy's days, or 400, no hold is active, and a finished unfiltered export that the organization acknowledged has served it |
| `KeyRingSteps.WriteKeeps` | packages/cli/src/keys.ts:187-233 | the first completed write to a slot fixes the epoch's key, its published hash or its retained copy |
| `KeyRingSteps.CurrentIsHighest` | packages/cli/src/keys.ts:485-536 | what a load settles on is an elected key, and nothing it saw lies above it |
| `KeyRingSteps.StepKeeps` | packages/cli/src/keys.ts:187-478 | every file operation and every stop keeps the files, the locks and what each process has read consistent, and takes nothing back that was won |
| `KeyRingGuarantees.HighestStaysUsable` | packages/cli/src/keys.ts:297-330 | epochs are installed without gaps and the highest one's private key is always in place |
| `KeyRingGuarantees.ChainHolds` | packages/cli/src/keys.ts:417-446 | on disk, each epoch's link is the hash in the published marker of the epoch before it |
| `KeyRingGuarantees.FirstPublicationStands` | packages/cli/src/keys.ts:452-478 | a published hash is never replaced |
| `KeyRingGuarantees.LoadsAreCurrent` | packages/cli/src/keys.ts:485-536 | every load, also one inside a rotation or after a publication, yields an elected key of an epoch no lower than any installed when that load began |
| `KeyRingGuarantees.ScrubbedKeysWereKept` | packages/cli/src/keys.ts:297-330 | before a private key left its state file, a retained copy of that very key had been installed |
| `KeyRingGuarantees.DecryptionKeyIsElected` | packages/cli/src/keys.ts:539-554 | the key given for an epoch's envelopes is the one elected for it, now and later, never another |
| `KeyRingDecryption.DecryptionIsExact` | packages/cli/src/keys.ts:538-553 | a process that looks for an earlier epoch's key gets it if and only if its copy was there when it listed them and has not expired when it has read them all; it gets what that copy held |
| `KeyRingDecryption.DecryptionDecides` | packages/cli/src/keys.ts:541-545 | at the decision: the asked key if its copy was read and is unexpired, and a refusal otherwise |
| `KeyRingDecryption.CurrentIsAnswered` | packages/cli/src/keys.ts:539-541 | a load for the current epoch is answered with the current key and needs no retained copy; only a locked marker stops it |
| `KeyRingDecryption.CopiesLast` | packages/cli/src/keys.ts:140-148 | a retained copy lasts three days and eight minutes from its retirement |
| `KeyRingScrub.LoadsScrubWhatIsBelow` | packages/cli/src/keys.ts:485-536 | whenever a process has loaded the current key, no private key of an earlier epoch is in place |
| `KeyRingScrub.RotationsAdvance` | packages/cli/src/keys.ts:424-452 | a rotation whose election is decided, won or lost, ends with a later epoch than it began with |
| `KeyRingScrub.NobodyRotatesUnasked` | packages/cli/src/keys.ts:395-452 | a load, a decryption or a publication never comes to evict a copy or to install an epoch, and neither does the load that ends a rotation |
| `KeyRingScrub.LostElectionsSettle` | packages/cli/src/keys.ts:436-446 | a rotation that finds its epoch retired always finds the successor; the error for a missing one is never thrown |
| `KeyRingErrors.ErrorsAreExact` | packages/cli/src/keys.ts:187-553 | exactly when each file operation throws: a needed file is missing or stays locked, the highest state seen was retired after the listing, another marker won, the copy is missing or expired, a live job needs it, or the base is unpublished; no other check can fail |
| `KeyRingErrors.ThereIsASuccessor` | packages/cli/src/keys.ts:485-516 | whenever a load fails because it saw no active epoch above all retired ones, a later epoch is installed and its private key is in place |
| `KeyRingErrors.ForeignFilesAreRefused` | packages/cli/src/keys.ts:284-330 | whatever is on disk, a marker, a retained copy or an elected state counts only if it is the one that fits the key at hand |
| `KeyRingErrors.ScrubIsChecked` | packages/cli/src/keys.ts:297-330 | whatever is on disk, a private key is scrubbed only if it is the key that was retained |
| `KeyRingErrors.SuccessorCanBeMissed` | packages/cli/src/keys.ts:485-516 | a run from setup in which a load fails that way |
| `KeyRingGuarantees.EvictionSparesLiveJobs` | packages/cli/src/keys.ts:399-416 | a retained copy disappears only in a rotation, and not while a live outbound job that the rotation loaded needs its epoch |
| `KeyRingRefusal.RotationDecides` | packages/cli/src/keys.ts:399-416 | a rotation extends the ring at once if fewer than eight epochs are live, and otherwise evicts the oldest copy unless a live job needs it |
| `KeyRingRefusal.RefusedRotationDecides` | packages/cli/src/keys.ts:399-416 | a rotation of an unpublished epoch goes on to evict the oldest copy if and only if eight epochs are live and no live job needs that one; otherwise it changes nothing |
| `KeyRingRefusal.RefusedRotationEvictsExactly` | packages/cli/src/keys.ts:415-422 | undisturbed, such a rotation is always refused, and by then the oldest copy is gone under exactly that condition and everything else as it was |
| `KeyRingRefusal.UnpublishedRotationEvicts` | packages/cli/src/keys.ts:415-422 | a run from setup to seven live copies and an unpublished eighth epoch, in which a rotation removes the copy of epoch 1 and is refused |
| `Unicode.WellFormedRoundTrip` | packages/shared/src/e2ee.ts:16-30 | a string is well formed if and only if it can be spelled again from its code points |
| `Unicode.IsWellFormedUnicode` | packages/shared/src/e2ee.ts:16-30 | the index loop decides well-formedness |
| `Unicode.FirstPoint` | packages/shared/src/canonical.ts:34-35 | a surrogate pair counts as its supplementary code point, a surrogate alone as U+FFFD, any other unit as itself |
| `Unicode.PointBytesAreStandard` | packages/shared/src/canonical.ts:35-35 | the bytes of a code point are those of the table in section 3 of RFC 3629 |
| `Unicode.Utf8Distinguishes` | packages/shared/src/canonical.ts:35-35 | two strings have the same UTF-8 bytes if and only if they spell the same code points |
| `Unicode.BytesByPoint` | packages/shared/src/canonical.ts:35-35 | the UTF-8 of a string is the bytes of its code points, one after the other |
| `Canonical.EncodeParts` | packages/shared/src/canonical.ts:16-41 | the encoding loop produces the parts of the encoding, and fails exactly on a value that cannot be encoded |
| `Canonical.CanonicalEncode` | packages/shared/src/canonical.ts:15-50 | the parts, copied into one buffer at a running offset, are the encoding |
| `Canonical.TextBytes` | packages/shared/src/canonical.ts:34-38 | text is tag 1, the length of its UTF-8 in four bytes, most significant first, and its UTF-8 |
| `Canonical.NumberBytes` | packages/shared/src/canonical.ts:24-31 | an integer is tag 2 and its 64-bit two's complement, most significant byte first |
| `Canonical.ListBytes` | packages/shared/src/canonical.ts:19-23 | null is tag 3, and a list is its values one after the other |
| `Canonical.EncodableExactly` | packages/shared/src/canonical.ts:24-27 | an error is thrown if and only if some number is no safe integer |
| `Canonical.EncodingDistinguishes` | packages/shared/src/canonical.ts:1-8 | two lists have the same bytes if and only if they mean the same value by value, text counting as its code points |
| `Canonical.EncodingIsInjective` | packages/shared/src/canonical.ts:1-8 | on well-formed strings the encoding is injective |
| `Canonical.LoneSurrogateCollides` | packages/shared/src/canonical.ts:1-8 | it is not injective on ill-formed ones |
| `Transcripts.BaseFields` | packages/shared/src/e2ee.ts:192-202 | the fields all messages share, in their order, with the message id only in durable ones |
| `Transcripts.RequestFields` | packages/shared/src/e2ee.ts:192-202 | tag, shared fields, task, context and message of a request, in this order, closed by the delivery mode if durable |
| `Transcripts.ResponseFields` | packages/shared/src/e2ee.ts:204-217 | tag, shared fields, request hash and outcome of a response, in this order, closed by the delivery mode if durable |
| `Transcripts.OutcomeFields` | packages/shared/src/e2ee.ts:206-208 | the fields of a reply and of a failure, in their order |
| `Transcripts.RecordFields` | packages/shared/src/keys.ts:61-79 | the fields of identity and encryption-key records and of envelope headers, in their order |
| `Transcripts.TranscriptsDistinguish` | packages/shared/src/e2ee.ts:184-217 | over requests and responses of both versions, envelope headers and key records: equal transcripts if and only if same kind and equal in every field the signature fixes |
| `Transcripts.RecordDecides` | packages/shared/src/keys.ts:68-79 | identity and encryption-key transcripts and envelope headers fix every field |
| `Base64Url.Encode` | packages/shared/src/signing.ts:6-10 | the copying loop and the replacements give unpadded base64url |
| `Base64Url.Decode` | packages/shared/src/signing.ts:12-19 | the decoding loop gives the bytes, or fails where `atob` would throw |
| `Base64Url.EncodingIsSymbols` | packages/shared/src/signing.ts:6-10 | the text is the sextets of RFC 4648 section 4 in the section 5 alphabet, without padding |
| `Base64Url.EncodingSpellsTheBits` | packages/shared/src/signing.ts:6-10 | character i is the symbol for bits 6 i to 6 i + 5 in the alphabet of section 5 of RFC 4648, and there are as many as all bits need |
| `Base64Url.DecodingInvertsEncoding` | packages/shared/src/signing.ts:12-19 | decoding what was encoded gives it back |
| `Base64Url.StrictIsExact` | packages/shared/src/signing.ts:24-43 | strict decoding accepts a text with result b if and only if b is non-empty and the text is its encoding: one spelling per byte string |
| `Base64Url.OnlyBlanksAreSkipped` | packages/shared/src/signing.ts:12-19 | plain decoding passes over the five ASCII whitespace characters, wherever they stand, and throws on any other character that is neither a symbol nor padding |
| `Base64Url.PlainDecodingIsLoose` | packages/shared/src/signing.ts:24-34 | plain decoding reads two spellings of one byte that strict decoding tells apart |
| `ExecutionJournal.Journal.ClaimExecution` | packages/cli/src/execution-journal.ts:58-82 | the verdict on a claim and the journal after it, which stays valid |
| `ExecutionJournal.Journal.Transition` | packages/cli/src/execution-journal.ts:84-104 | a record moves only forward, only under its own digest |
| `ExecutionJournal.Journal.MarkExecutionStarted` | packages/cli/src/execution-journal.ts:106-110 | succeeds exactly on a claimed record of the same digest |
| `ExecutionJournal.Journal.MarkExecutionTerminal` | packages/cli/src/execution-journal.ts:112-116 | succeeds exactly on an unfinished record of the same digest |
| `ExecutionJournal.RecordsAreApart` | packages/cli/src/execution-journal.ts:58-82 | two records of one call are made at least 96 hours apart by the clock readings the journal saw |
| `ExecutionJournal.OneStartPerRecord` | packages/cli/src/execution-journal.ts:84-104 | a call starts again only after a claim read a clock past its first record's purge time |
| `ExecutionJournal.StartsWereClaimed` | packages/cli/src/execution-journal.ts:58-104 | what starts was claimed, same call and same ciphertext |
| `ExecutionJournal.OtherCiphertextIsRefused` | packages/cli/src/execution-journal.ts:67-69 | while a record is kept, its call is refused with any other ciphertext |
| `ExecutionJournal.StartedIsNeverExecuted` | packages/cli/src/execution-journal.ts:67-72 | while the record of a started call is kept, no redelivery is told to execute |
| `ExecutionAnswers.NewClaimIsAnswered` | packages/cli/src/execution-journal.ts:58-82 | a claim of a call that is not remembered makes a record and is told to execute, unless it is malformed or a thousand calls are remembered |
| `ExecutionAnswers.RedeliveryIsAnswered` | packages/cli/src/execution-journal.ts:67-73 | a claim of a remembered call is refused under another ciphertext, and otherwise told to execute before a start, indeterminate after a start, terminal after a finish |
| `ExecutionAnswers.StartIsExact` | packages/cli/src/execution-journal.ts:84-104 | a start succeeds if and only if the call was claimed with the same ciphertext, is on file, and was neither started nor finished since |
| `ExecutionAnswers.FinishIsExact` | packages/cli/src/execution-journal.ts:84-104 | a finish succeeds if and only if the call was claimed with the same ciphertext, is on file, and was not finished since |
| `ExecutionListener.AgentRunsOnlyAfterAStart` | packages/cli/src/listener.ts:252-349 | over redeliveries, restarts and any interleaving, each agent run used a successful start, of a call and ciphertext claimed before |
| `ExecutionListener.AgentRunsAtMostOncePerRecord` | packages/cli/src/listener.ts:252-349 | no two agent runs used the same start, and a second one of a call follows a purge of the first one's record |
| `ExecutionListener.ClearedExactly` | packages/cli/src/listener.ts:252-266 | a delivery goes on to its start if and only if its claim makes a record, or finds one of the same ciphertext neither started nor finished |
| `ExecutionListener.MarkedExactly` | packages/cli/src/listener.ts:322-332 | a handler may run the agent if and only if its start succeeds in the journal; if not, it can only mark the call finished |
| `ExecutionListener.FirstDeliveryRuns` | packages/cli/src/listener.ts:322-349 | a first delivery that starts before anything else happens runs the agent |
| `ExecutionListener.RestartCanLoseARun` | packages/cli/src/listener.ts:322-349 | a listener that stops between the mark and the run loses the call: at most once, not exactly once |
| `ReplayStore.Store.ReserveReplay` | packages/cli/src/replay-store.ts:56-91 | the verdict on a reservation and the store after it, bounded, sorted and free of duplicates |
| `ReplayStore.SortedRows` | packages/cli/src/replay-store.ts:84-87 | sorting keeps every entry and orders them |
| `ReplayStore.StoreStaysValid` | packages/cli/src/replay-store.ts:22-33 | for arbitrary clock readings the store stays within 10,000 entries, in order, with no request twice |
| `ReplayAnswers.EntriesWereTaken` | packages/cli/src/replay-store.ts:71-88 | the store holds exactly the reservations that were taken and not dropped by a later one read two minutes past their expiry |
| `ReplayAnswers.ReservationIsAnswered` | packages/cli/src/replay-store.ts:64-82 | refused as invalid exactly outside the next eight minutes, as a replay exactly if an attempt at the same request is remembered, as full exactly if ten thousand are, and taken otherwise |
| `ReplayStore.TakenTwiceOnlyByABadClock` | packages/cli/src/replay-store.ts:56-91 | the same reservation is taken twice only if some reading in between exceeded the second by more than 120 s |
| `ReplayStore.RepeatIsTakenExactlyIfForgotten` | packages/cli/src/replay-store.ts:56-91 | a valid repeat that finds room is taken again if and only if an attempt taken since read a clock past the reservation's retention |
| `ReplayStore.TakenTwice` | packages/cli/src/replay-store.ts:67-90 | a clock that jumps ahead and comes back lets one reservation be taken twice |
| `Recovery.StepKeeps` | packages/cli/src/commands/recovery.ts:165-237 | every step of the installation, the relay and everyone else keeps the token that the relay accepts on disk if it is one of the installation's |
| `Recovery.CommitTokens` | apps/relay/src/recovery.ts:211-270 | when the relay's token changes hands it becomes the candidate in the pending file or someone else's |
| `RecoveryExchange.RedemptionIsExact` | apps/relay/src/recovery.ts:228-275 | a batch changes the handle if and only if the request carries the current proof and generation and was not committed before; token, proof and generation are then those of the request, with a receipt for seven days |
| `RecoveryExchange.CommitIsAnswered` | apps/relay/src/recovery.ts:277-312 | the request that committed is answered with its receipt, any other looks for one again |
| `RecoveryExchange.ReceiptsGoByAge` | apps/relay/src/recovery.ts:275-275 | a batch rewrites no receipt, and drops exactly the expired ones unless all of it is undone |
| `RecoveryExchange.LiveReadIsExact` | apps/relay/src/recovery.ts:220-226 | a request reaches the batch if and only if it carries the current proof and generation |
| `RecoveryExchange.MalformedIsRefused` | apps/relay/src/recovery.ts:195-200 | a request whose public ids are not those of its secrets is turned away |
| `RecoveryExchange.SecondReadIsExact` | apps/relay/src/recovery.ts:281-305 | a request that lost the race gets the winner's receipt if and only if it repeats it in every field |
| `RecoveryExchange.IssueIsExact` | apps/relay/src/recovery.ts:162-192 | a new proof is issued if and only if the current token and generation are presented, and replaces the old one |
| `RecoveryExchange.OnlyTheLastProofCounts` | apps/relay/src/recovery.ts:162-275 | at any time the relay accepts the proof that was issued or named in a redemption last, and no other |
| `RecoveryExchange.TakeoverNeedsTheProof` | apps/relay/src/recovery.ts:220-275 | in any run the token changes only by a rotation or by a request that carries the proof and generation accepted at that moment |
| `RecoveryExchange.AnswerIsChecked` | packages/cli/src/commands/recovery.ts:157-163 | an answer is taken if and only if it names the operation, both generations and both new secrets |
| `RecoveryExchange.RecoveryGoesThrough` | packages/cli/src/commands/recovery.ts:165-237 | whoever has the proof gets the handle back: an undisturbed first attempt ends with the new token at the relay and in the config and the new proof in force |
| `RecoveryExchange.AnyoneWithTheProofCanRedeem` | apps/relay/src/recovery.ts:194-275 | whoever else presents the current proof and generation gets the handle, and the proof it named is in force |
| `RecoveryExchange.PublicIdIsAPrefix` | packages/cli/src/commands/recovery.ts:47-47 | a public id is the first 16 of the 64 digits of a digest |
| `RecoveryGuarantees.CredentialIsNeverLost` | packages/cli/src/commands/recovery.ts:165-237 | once the relay committed a recovery, and for as long as it accepts that token, the token is in the pending file or in the config |
| `RecoveryGuarantees.GenerationsAreUsedOnce` | apps/relay/src/recovery.ts:162-192 | each generation is used up at most once across issue and redemption |
| `RecoveryGuarantees.AnswersAgree` | apps/relay/src/recovery.ts:102-115 | all answers about one operation on one generation are the same receipt |
| `RecoveryGuarantees.ReplayIsAnswered` | apps/relay/src/recovery.ts:211-218 | a request for a committed operation changes nothing while its receipt is kept, and gets that receipt if and only if it repeats the committed request in every field |
| `RecoveryGuarantees.ResumeRestoresTheCredential` | packages/cli/src/commands/recovery.ts:165-237 | after any interruption, a resume of a committed operation before its receipt expires ends with the committed token in the config and no pending file |

## Left out

- WebSocket and HTTP handling, routing, rate limits, telemetry, D1 and file drivers, file modes: only the state change each of them performs is here.
- Callers' cancel waiters and the frames sent to callers and listeners: notifications, not storage.
- `principal`, `correlation_id`, `traceparent` and addresses on task records: carried along and never read by the transactions.
- The rule of 30 starts a day, the time a call must have left to be dispatched, and that authority still holds when a lease is granted: all are looked at on the record read before the leasing transaction, in which the head of the queue may be another call.
- Whether an alarm is armed: `ScheduleNextAlarm` picks the time, but the platform's alarm slot and the early re-arming inside transactions are not modelled.
- A crash between the record of a terminal frame and its finishing step leaves the active pointer on an ended call until its purge; nothing is claimed about when the next call is leased then.
- Trimming `org_events` to a row limit by the mailbox's delivery batch; in the export model trimming is one of the deletions that may happen at any time.
- A durable task with an empty caller id, which the quota and dedupe code would skip: identities are authenticated before a call is admitted.
- The retention-policy upsert and its request log: the policy is an input, and no claim is made about its version.
- Replies of the acknowledgement endpoint, `If-None-Match` parsing and entity tags.
- D1 tables and key files are values that steps replace, not objects: what matters about them is how the steps of several processes interleave.
- Failing writes, syncs and unlinks in the key ring (a process stops instead), first-time setup, and the election of the pending publication record.
- MailboxGuarantees.QueuedCallsAreReached: repeats the storage half of a dispatch; the exits of `dispatchNext` on lost authority or the start cap, and steps of others in between, are not in it.
- RecoveryGuarantees.AnswersAgree: `eviction_confirmed` and the agent kind are not part of the model's receipt.
- AuditRetention.RetentionSafety: says nothing about content, which the model carries in `log` and never changes; that no code rewrites an event row is read off the source.
- Canonical.EncodingDistinguishes: requires strings of fewer than 2^32 UTF-8 bytes, beyond which the length prefix wraps; no JavaScript engine has them.
- Transcripts.TranscriptsDistinguish: of the schemas it uses well-formedness, encodable numbers and that a durable message has an id; patterns and size limits only narrow it further.
- KeyRingGuarantees.DecryptionKeyIsElected: safety only; that a retained copy can be read until it expires or is evicted depends on locks that a stopped process may leave behind.
- ReplayStore.TakenTwiceOnlyByABadClock: is about equal reservations, expiry included, as a repeated signed request presents; one request id under two expiry times is not one reservation.
- Eviction jobs of the relay's recovery, session eviction state, audit rows of recovery, and the agent kind in a receipt.
- Guards, scopes, redaction, cards, contacts, setup, doctor and rendering.
