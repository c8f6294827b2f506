# Verification of the acquisition and local import workflows

This project models, in Dafny 4.11, how files enter the media library: the lease-fenced, resumable download protocol, the
local import workflow, the signed plans that start them, and three smaller algorithms around them (the proxy pool, the
consensus on the exit address, the Cookie header). `dafny verify dfyconfig.toml` checks all of it.

## The download protocol

`Protocol.dfy` is a state machine. Its state holds the committed database rows (tasks, download facts, link rows), two
directories of names over inodes with their contents, the write fence, the clock, and any number of executors. A step is
one database transaction, one file system call, or one event of the environment: time passing, a control operation on a
row (start, pause, cancel, retry, lease acquisition, restart recovery), a foreign file, the stale-file sweep, an exception
at any point, or the death of a process. Every commit can be acknowledged, raise without effect, or raise after taking
effect. A step whose guard fails changes nothing, so every sequence of steps is a run.

The row operations of `PersistentTaskService` (`Tasks.dfy`) are modelled as they stand in the source, transition matrix
included. Two steps are guarded by less than the lease, as in the source: the final transition and the exception handler
compare only a freshly read version. Both are steps of the machine like all others, and the invariant holds across them.

`ProtocolInvariant.dfy` states the inductive invariant; `ProtocolFrames.dfy`, `ProtocolShapes.dfy` and `ProtocolSteps.dfy`
prove that each of the 26 kinds of step keeps it together with everything that is permanent, and say how a step moves its
executor; `ProtocolTheorems.dfy` draws the conclusions about whole runs. Where the code gives less than one might expect,
the other modules say exactly when. `ProtocolLimits.dfy` treats the content of visible files, `ProtocolBars.dfy` what keeps
a run from ever publishing, `ProtocolRecovery.dfy` when an interrupted download can be resumed and published,
`ProtocolGrowth.dfy` when its file can still gain bytes, and `ProtocolHandler.dfy` what the exception handler of a
superseded run does to the run that holds the lease. `ProtocolWitness.dfy` exhibits reachable states: a download that
succeeds, and the ones in which it cannot. Its runs download a JPEG file; the types that contents announce are those that
the code detects, and the size limit is one that a plan may have.

`Downloader.dfy` is one run of `SafeDownloadExecutor` in imperative form. Between any two of its operations an arbitrary
environment may rewrite the database and the disk; only during the run's own write transaction does the database stand
still. The class records its operations in a log. The log follows the phases of the state machine, each fenced entry
carries the row that its heartbeat matched, and the way the run ends is tied to what fresh sessions have seen.
`Simulation.dfy` connects the two: from any state of the machine that agrees with the session, a stamp in the log is the
machine's commit of that stage, and the commit of an offset is the machine's run of heartbeat, write calls and commit, however
these commits end. `RunSimulation.dfy` puts them together: a whole log, with any steps of others between the turns of the
executor, with commits that raise, broken writes, errors elsewhere and the steps of the exception handler, is a run of the
machine. When the log is past the link row, the target holds exactly what was resumed and appended, and what the handler does
agrees with the log.

What the proofs say of the code, beyond its promises:

- The link call is not fenced. A superseded executor can still link a file that the new holder of the lease keeps appending
  to, and the visible file then changes. The content of a visible file is final exactly when no executor that has it open
  could still append; a linker that still holds the lease always publishes final content.
- The exception handler is not fenced. While a run that holds the lease is receiving, the handler of a superseded run of the
  same task can take the row out of `running` exactly when that run failed with a code other than the two lease codes, pause
  and cancellation, and it removes the name of the file they share exactly when it remembers that name and has linked
  nothing. Either way the run that holds the lease never publishes, provided in the second case that the file is not visible
  already. A run that has linked its target is never recorded as FAILED by its own handler, and loses no name to it, in any
  continuation.
- An interrupted download can be resumed and published exactly when the file is the recorded inode with one name and the
  recorded length, the run holds the lease, the target is free, and some longer content that begins with the file meets the
  demands of row and plan. So a file that is already as long as its row expects can never be published: the run must add
  bytes, and must end at the length the file already has. A crash or lost commit at stage `verified` leaves such a file;
  so does an ordinary pause after the last chunk when the plan knows the length (`app/acquisition/service.py:315`). The
  failed run removes the file, and a retry starts afresh.
- While no write transaction is open, a recorded temporary file can still gain bytes exactly when some run may already
  append to it, or its task is not in a terminal state, the file passes the checks for resuming and is below the limit. One
  that a crash left longer than its committed offset is never written again.
- A crash between the link and the commit of stage `published` leaves a row that restart recovery only pauses; every later
  run that reads the recorded file refuses it, because it is visible already.
- Restart recovery aborts for all rows as soon as one row is being cancelled, since CANCELLING admits neither target.

## The local import workflow

`LocalImport.dfy` proves the preview loop against a declarative partition. `LocalConfirmation.dfy` proves that confirmation
gives one task per file in the order of the plan, says exactly when a plan can be confirmed, and that confirming again at
any later time creates no task, also after a commit that raised although it took effect. `Intents.dfy` shows that the
`:`-joined texts behind the intent keys determine their parts. `LocalExecution.dfy` models one run as a function of what the
environment does, proves the imperative run against it, and classifies every outcome. Between any two transactions of the
run other sessions may pause, cancel, retry, resume or start the task. Results that concern the code as it is:

- Starting a task that is already running records the failure of the run in progress unless that has written.
- A run commits its link row without looking at the row's state. One operation of another session between heartbeat and link
  commit leaves the link row committed with the row paused, being cancelled or, after a second start, failed.
- A link row and a recorded failure can stand together exactly when the link row was there before and a run gets past the
  heartbeat, which moves the stage back, or when such a second start comes in between. The first kind is even offered for a
  retry.

## Tokens, proxies, addresses, cookies

`Base64.dfy` is the unpadded URL-safe base64 of section 5 of RFC 4648 with Python's strict decoder; `Tokens.dfy` builds both
kinds of plan token on it. `ProxyPool.dfy` proves health, eligibility and selection against the history of probes, and
`PoolFile.dfy` that a parsed pool survives saving. `Consensus.dfy` proves the vote and the country verdict independent of
the order in which sources complete. `Cookies.dfy` covers host matching (compare section 5.1.3 of RFC 6265), the last-wins
filter, the header and its reader, key derivation and unpadding.

## Assumptions

- SHA-256 is a free constructor: different contents have different digests. HMAC, MD5 and JSON are parameters; JSON parsing
  inverts printing.
- A task and lease generation is given to one executor only, as the routes do (`app/routers/tasks.py:392-417`).
- Inode numbers are not reused, processes crash but power does not fail, and nobody but the modelled steps removes a file
  from the media directory.
- The write fence is the database's single writer: from the heartbeat of a chunk to its commit nobody else commits.
- Opening a recorded temporary file, reading its size and reading its content are one step.

## Model

| member | source | states |
|---|---|---|
| Tasks.RowOpKeeps | app/tasks/service.py:129-278 | every row operation keeps rows sound, leaves identity and download facts alone, never lowers the generation, and ends no lease twice |
| Tasks.RowOpEndsLease | app/tasks/service.py:129-278 | after any control operation on a row no lease given before is held |
| Tasks.SpentLeaseStaysSpent | app/tasks/service.py:233-330 | a lease that somebody else has taken over or that was cleared is never held again, over any history of operations |
| Tasks.RecoverInterrupted | app/tasks/service.py:435-461 | restart recovery succeeds if and only if no row is being cancelled; then exactly the running rows move, to BLOCKED or PAUSED by stage, and lose their lease |
| Transfer.HeaderDecidesMime | app/acquisition/downloader.py:101-112 | the first 32 bytes decide the detected type of the whole file |
| Transfer.FinalChecksRefineOneShot | app/acquisition/downloader.py:818-833 | the checks on running total, header and digest accept exactly the contents that a one-shot check of the whole file accepts, given that bytes were added and the announced length is met |
| Transfer.PartialResponseEndsAtRangeEnd | app/acquisition/downloader.py:556-586 | an accepted 206 with a content length ends at range end plus one, within total and limit |
| Transfer.FullLengthOnlyFromKnownLength | app/acquisition/downloader.py:818-828 | reaching the announced total is not demanded; only a known expected length forces the full length |
| Transfer.CompleteTempIsRefused | app/acquisition/downloader.py:819-828 | a run that starts at the expected length is refused whatever it receives |
| ProtocolSteps.StepKeeps | app/acquisition/downloader.py:641-1153 | each step of anybody keeps the invariant; only writes change file contents, only commits and the handler change records, a name is added to an existing inode only by the link call, and an executor moves along the protocol's phases |
| ProtocolSteps.RunKeeps | app/acquisition/downloader.py:641-1153 | the invariant, and the permanence of link rows, terminal states, media names, sealed contents, prefixes and what a run has linked, over every interleaving, crash and takeover |
| ProtocolTheorems.ResumeOffsetMatchesFile | app/acquisition/downloader.py:517-553 | the committed offset never exceeds the file, and equals its length unless a write transaction is open or was cut short |
| ProtocolTheorems.AppendsAreFenced | app/acquisition/downloader.py:670-710 | a byte enters a download's file only from the executor that has the fence and the current owner and generation, and continues what that executor has read and written |
| ProtocolTheorems.RecordsChangeUnderLease | app/acquisition/downloader.py:641-668 | stage, offset and link row change only in a heartbeat-guarded commit under the current lease, in the final transition and its downgrade, or when the handler forgets a file |
| ProtocolTheorems.SupersededExecutorIsInert | app/acquisition/downloader.py:588-710 | once another run holds the lease, no heartbeat-guarded step of the old run has an effect in any continuation |
| ProtocolTheorems.GuardedGenerationsAscend | app/tasks/service.py:281-330 | the generations of the fenced steps that take effect on a row never decrease along a run |
| ProtocolTheorems.StageNeverOverstates | app/acquisition/downloader.py:834-1001 | verified, published, db_linked and durable_verified each imply what the files and rows must then be; a file with a link row has the size and digest that the plan demands |
| ProtocolTheorems.LinkRowsAreForever | app/acquisition/downloader.py:892-918 | a committed link row, its file, their agreement and the size and digest that the plan demands hold in every continuation |
| ProtocolTheorems.PublicationNeverClobbers | app/acquisition/downloader.py:853-860 | no step replaces or removes a name in the media directory |
| ProtocolTheorems.AtMostOneRunLinksATarget | app/acquisition/downloader.py:853-860 | of any number of runs at most one links a given target |
| ProtocolTheorems.LinkedInodeStaysNamed | app/acquisition/downloader.py:853-875 | from the link through the unlink and ever after, the linked inode has the target as a name |
| ProtocolLimits.VisibleContentIsFinalIff | app/acquisition/downloader.py:848-860 | a visible file keeps its content in every continuation if and only if no executor that has it open could still append |
| ProtocolLimits.CurrentLinkerPublishesFinalContent | app/acquisition/downloader.py:848-860 | a run that holds the lease when it links publishes exactly what it digested, for good |
| ProtocolLimits.VisibleIsNotResumed | app/acquisition/downloader.py:70-81 | a temporary file that is also visible as media is refused as unsafe |
| ProtocolHandler.SupersededHandlerStopsIff | app/acquisition/downloader.py:1110-1133 | under a run that holds the lease and receives, the handler of a superseded run can take the row out of running if and only if its code is none of lease lost, lease conflict, pause and cancellation, and no write transaction is open |
| ProtocolHandler.SupersededHandlerUnlinksIff | app/acquisition/downloader.py:1135-1152 | it takes the name of the file which that run has open if and only if it remembers a file of that name, has linked nothing, and failed neither over lease nor pause |
| ProtocolHandler.StoppedHolderNeverPublishes | app/acquisition/downloader.py:1110-1133 | the run whose row was taken out of running never publishes, in any continuation |
| ProtocolHandler.UnlinkedHolderNeverPublishes | app/acquisition/downloader.py:1135-1152 | nor does the run whose file lost its name and is not visible already, in any continuation |
| ProtocolHandler.LinkedRunIsNeverFailed | app/acquisition/downloader.py:1110-1152 | once a run has linked its target, in every continuation its handler records no failure and removes no name |
| ProtocolBars.BarredForever | app/acquisition/downloader.py:517-860 | a run that finds its target taken, its lease gone, its file damaged or nameless, or nothing that could complete the file, never publishes, whatever it and all others do |
| ProtocolWitness.SupersededLinkIsNotFinal | app/acquisition/downloader.py:848-860 | a reachable state, with types as the code detects them, in which a superseded run links a file that the new holder may still append to |
| ProtocolWitness.SupersededHandlerStopsTheHolder | app/acquisition/downloader.py:1110-1152 | a reachable state, with types as the code detects them, in which the handler of a superseded run can fail the holder's row and remove the shared file |
| ProtocolWitness.PausedCompleteFileIsStuck | app/acquisition/service.py:314-316 | a reachable state at stage downloading in which an ordinary pause has left a file that is in order, complete, and can never be published |
| ProtocolWitness.PausedFileCanBePublished | app/acquisition/downloader.py:517-554 | a reachable state in which a paused download can be resumed and published |
| ProtocolWitness.ADownloadSucceeds | app/acquisition/downloader.py:712-1027 | a reachable state in which a download has succeeded and its link row is committed |
| ProtocolRecovery.RecordedFileCanBePublishedIff | app/acquisition/downloader.py:517-860 | some continuation of a run that is about to read a recorded file publishes if and only if the file is the recorded inode with one name and the recorded length, the lease is held, the target is free, and some longer content that begins with it meets the demands of row and plan |
| ProtocolRecovery.CompleteFileIsNeverPublished | app/acquisition/downloader.py:818-828 | a run that reads a file as long as its row expects publishes in no continuation |
| ProtocolRecovery.VerifiedTempIsNeverPublished | app/acquisition/downloader.py:834-847 | nor does a run that reads a file left at stage verified |
| ProtocolGrowth.RecordedFileCanGrowIff | app/acquisition/downloader.py:517-554 | with no write transaction open, some continuation adds a byte to a recorded file if and only if a run may already append to it, or its task is in no terminal state, the file passes the checks for resuming and is below the limit |
| ProtocolGrowth.CutShortFileIsNeverExtended | app/acquisition/downloader.py:526-530 | a file longer than its committed offset never gains a byte again, in any continuation |
| ProtocolRecovery.CrashBeforePublishedIsNotReviewed | app/tasks/service.py:446-454 | a crash after the link and before published leaves a row that recovery pauses, and no later run that reads the recorded file publishes |
| Downloader.SafeDownloadExecutor.AssertLease | app/acquisition/downloader.py:588-631 | success means that the lease was held when a fresh session looked; pause and cancellation are reported only when recorded |
| Downloader.SafeDownloadExecutor.CommitProgress | app/acquisition/downloader.py:641-668 | at most one stamp is committed, under the lease and with an admitted lifetime; it is the row and fact before it with stage, offset, lease and exactly what was pending for that stage |
| Downloader.SafeDownloadExecutor.OsWrite | app/acquisition/downloader.py:697-702 | the bytes are appended to the open file and to nothing else |
| Downloader.SafeDownloadExecutor.WritePieces | app/acquisition/downloader.py:696-702 | short writes append the chunk in order; a failure leaves a prefix of it; the database does not change |
| Downloader.SafeDownloadExecutor.WriteFencedChunk | app/acquisition/downloader.py:670-710 | all bytes go in under the lease, and the offset is committed only after all of them |
| Downloader.SafeDownloadExecutor.OpenTemp | app/acquisition/downloader.py:517-554 | a recorded file is resumed only with its recorded length and a single name; otherwise nothing is opened; total, header and digest match its content |
| Downloader.SafeDownloadExecutor.Absorb | app/acquisition/downloader.py:813-816 | for any split into chunks the header is the first 32 bytes, the digest that of everything, the total its length |
| Downloader.SafeDownloadExecutor.TakeChunk | app/acquisition/downloader.py:799-816 | a chunk is taken in only if not empty and within the limit |
| Downloader.SafeDownloadExecutor.Receive | app/acquisition/downloader.py:787-816 | the loop ends, keeps the running facts and never writes beyond the limit |
| Downloader.SafeDownloadExecutor.FinalChecks | app/acquisition/downloader.py:818-836 | passing means that the one-shot demands hold of the whole content and the file has one name |
| Downloader.SafeDownloadExecutor.OsLink | app/acquisition/downloader.py:853-860 | a free target name now names the temporary file; no content changes |
| Downloader.SafeDownloadExecutor.Publish | app/acquisition/downloader.py:850-875 | the run counts as published exactly when it has linked, and success means linked and then unlinked |
| Downloader.SafeDownloadExecutor.RemoveTempName | app/acquisition/downloader.py:861-875 | the temporary name goes only after the target was seen to be the open file with the full length |
| Downloader.SafeDownloadExecutor.VerifyCommitted | app/acquisition/downloader.py:323-445 | success means that fresh reads of row, single link row, file and single index row agreed, with the lease held or cleared as the state demands |
| Downloader.SafeDownloadExecutor.VerifyPreState | app/acquisition/downloader.py:274-320 | success means that a fresh session saw no link row and the captured facts |
| Downloader.SafeDownloadExecutor.Record | app/acquisition/downloader.py:876-991 | published, db_linked and index_coordinated are stamped in this order, the last two re-read by fresh sessions |
| Downloader.SafeDownloadExecutor.Complete | app/acquisition/downloader.py:992-1001 | the final transition sets SUCCEEDED and durable_verified, clears the lease, and fixes the version to look for |
| Downloader.SafeDownloadExecutor.Handle | app/acquisition/downloader.py:1028-1153 | a normal return only on an independent proof of this run's own commit; WRITE_FAILED only on a proof that nothing changed; the row and the file are treated as the code says |
| Downloader.SafeDownloadExecutor.Execute | app/acquisition/downloader.py:712-1153 | fenced operations in the order of the protocol, nothing unaccepted linked, writes within the limit, and an outcome that fresh sessions bear out for the asset and target read at the start, whatever the environment does and however commits end |
| Downloader.MilestonesInOrder | app/acquisition/downloader.py:753-1001 | a run passes the milestones in their one order and skips none |
| Simulation.StampIsAStep | app/acquisition/downloader.py:641-668 | from every state of the machine that agrees with the session, a logged stamp is the machine's commit of that stage, acknowledged, raised before or raised after: same row, fact, link row and phase |
| Simulation.ChunkIsARun | app/acquisition/downloader.py:670-710 | a logged commit of an offset, however it ends, is the machine's run of heartbeat, write calls split in any way, and commit |
| RunSimulation.LogIsARun | app/acquisition/downloader.py:753-1153 | the turns of a whole run, raised commits, errors and handler included, with any steps of others between them, are a run of the machine: its phase and content are those of the log until the run raises, and from then on the target is linked exactly if the log says so |
| RunSimulation.CompleteLogDelivers | app/acquisition/downloader.py:876-1153 | after a log that contains the commit of the link row, that row is committed and its target holds exactly what was resumed and appended, as plan and row demand, however commits ended and whatever the handler and others did |
| RunSimulation.CleanupFollowsTheLog | app/acquisition/downloader.py:1028-1153 | over a whole run the handler never settles a run that has linked as failed nor touches its file, and marks only such a run as unverified |
| TempCleanup.CleanupIsARun | app/acquisition/downloader.py:1163-1216 | removing stale files, any of them in any order, is a run of sweeps of the machine that takes away these names and nothing else |
| TempCleanup.TempDirectory.CleanupStale | app/acquisition/downloader.py:1163-1216 | exactly the stale, removable files go, everything else stays as it was, and the count is right |
| Choosing.ChoicePartitions | app/local_workflow/service.py:182-194 | chosen and other items together are all items, with multiplicity |
| LocalImport.BuildPreview | app/local_workflow/service.py:165-198 | importable files and duplicates are the two order-preserving parts given by "first of its content among files not stored"; an error exactly when nothing is importable |
| LocalImport.PreviewPartitions | app/local_workflow/service.py:182-194 | importable files and duplicates together are the selected files |
| LocalImport.ImportableIsFresh | app/local_workflow/service.py:182-194 | importable contents are pairwise different and not stored, and no new content is lost |
| Intents.IntentDeterminesFile | app/local_workflow/service.py:281-283 | the intent text determines item, path and hash, colons in the path notwithstanding |
| Intents.DownloadMaterialDetermines | app/acquisition/service.py:105-108 | the intent text of a download determines source, asset and target |
| LocalConfirmation.ImportConfirmer.Confirm | app/local_workflow/service.py:333-415 | the loop computes the confirmed table and result, with rollback, for each way the commit can end |
| LocalConfirmation.ConfirmationIsBijective | app/local_workflow/service.py:286-330 | one different task per file in plan order, each with its facts and accepted; existing tasks untouched; every new task belongs to the plan |
| LocalConfirmation.ConfirmationIsIdempotent | app/local_workflow/service.py:333-415 | confirming again at any later time, with tasks moved on in state and stage, creates none: it returns the same ids if and only if they are all accepted then, and otherwise only blocks the queued ones |
| LocalConfirmation.ConfirmationAfterLostCommit | app/local_workflow/service.py:383-415 | after a commit that raised although it took effect, confirming again gives the original result |
| LocalConfirmation.ConfirmedIffConfirmable | app/local_workflow/service.py:350-382 | a plan is confirmed if and only if every file is as planned and every task its intents already have carries it and is accepted |
| LocalConfirmation.RefusalChangesNothing | app/local_workflow/service.py:386-415 | a refusal leaves the table alone, except that unverified queued tasks are blocked |
| LocalExecution.LocalTaskRunner.Execute | app/local_workflow/service.py:597-752 | the imperative run, with other sessions between its transactions, commits and returns as the outcome function says |
| LocalExecution.LinkCommittedEndsWellIff | app/local_workflow/service.py:560-594 | a run that commits its link row, whatever others do in between, ends succeeded or unknown if and only if the row is still running at the final transition or at the marking and that commit takes effect, or another session has marked it unknown |
| LocalExecution.LinkCommittedIsNeverFailure | app/local_workflow/service.py:560-594 | alone, a run that commits the link row ends succeeded or unknown, whichever commit raises, unless the marking itself is lost |
| LocalExecution.OvertakenRunLinks | app/local_workflow/service.py:650-690 | one pause, cancellation or second start between heartbeat and link commit leaves the link row committed with the row paused, being cancelled or failed |
| LocalExecution.FailureMeansNothingLinked | app/local_workflow/service.py:579-594 | a failure recorded by a run that started without link row means that none is committed, unless a second start came between heartbeat and link commit |
| LocalExecution.ReturnMeansDelivered | app/local_workflow/service.py:720-738 | a normal return means a final row, a cleared lease and, for an import, a committed link row for the checked file, whatever others did |
| LocalExecution.SecondStartFailsTheFirst | app/local_workflow/service.py:617-632 | starting a running task records its failure if and only if, when the handler looks, it is running, has not written, and the marking commits; else it changes nothing |
| LocalExecution.LinkedTaskCanStillFail | app/local_workflow/service.py:640-690 | some run ends FAILED with the link row committed if and only if the row was there and a run can get past the heartbeat or was begun twice, or an import can be started whose second start comes before its link commit |
| LocalExecution.LinkedTaskIsOfferedForRetry | app/local_workflow/service.py:486-502 | a lost acknowledgement of the link commit, a lost marking, a restart and an early failure of the next run lead to a linked task that is offered for a retry |
| LocalExecution.RetryOfferedOnlyBeforeWriting | app/local_workflow/service.py:486-502 | after a first run a retry is offered only for FAILED with nothing linked, whatever others did; alone it is offered exactly for FAILED |
| Base64.DecodeAfterEncode | app/acquisition/service.py:204-212 | decoding inverts encoding for all byte strings |
| Base64.EncodeAfterDecodeIff | app/acquisition/service.py:204-212 | encoding gives a decodable text back if and only if it is the canonical one |
| Base64.B64IsPlain | app/acquisition/service.py:204-205 | stripping leaves exactly the unpadded text, without dots or equals signs |
| Tokens.SplitsInThree | app/acquisition/service.py:254-256 | a token of three dot-free parts is split into exactly these |
| Tokens.DownloadTokenRoundTrip | app/acquisition/service.py:215-278 | verification returns the signed plan if and only if issued <= now < expires, the context is the same and the token is not too long |
| Tokens.AcceptedDownloadWasIssued | app/acquisition/service.py:215-278 | with a MAC that determines key and message, an accepted token that bears the signature of an issued one carries its segment, plan and context under the same secret, inside the signed window |
| Tokens.SegmentDeterminesDocument | app/acquisition/service.py:215-246 | two documents with the same segment are the same document |
| Tokens.LocalTokenRoundTrip | app/local_workflow/service.py:212-278 | verification returns the signed plan if and only if now <= expires and the context is the same |
| Tokens.TokenKindsAreApart | app/local_workflow/service.py:247-256 | neither verifier accepts a token of the other kind |
| ProxyPool.HealthFollowsHistory | app/egress/pool.py:495-562 | fail count is the failing streak plus the loaded count, ok means the last probe succeeded, with zero cooldown and policy acceptance |
| ProxyPool.StreakCountsFailures | app/egress/pool.py:495-562 | the streak counts exactly the failures since the last success |
| ProxyPool.EligibleByHistory | app/egress/pool.py:573-594 | eligibility in terms of the probes and the loaded health, which decides only until the first probe and through its fail count |
| ProxyPool.LeastIsLeast | app/egress/pool.py:605-625 | the chosen candidate is one of them and none has a smaller key |
| ProxyPool.SelectionIgnoresOrder | app/egress/pool.py:596-625 | permuting the candidates does not change the choice |
| ProxyPool.Pool.ProbeOne | app/egress/pool.py:495-562 | one health entry follows one more probe, and all health stays what the history says |
| ProxyPool.Pool.ListEligible | app/egress/pool.py:573-594 | exactly the eligible proxies, in configuration order |
| ProxyPool.Pool.Select | app/egress/pool.py:596-625 | the one candidate strictly before all others, or none if there is no candidate; with probing required never one that the policy rejects |
| PoolFile.TakeDistinct | app/egress/pool.py:372-396 | the list is accepted if and only if every entry is converted, ids are present and unique and URLs admitted |
| PoolFile.FromDict | app/egress/pool.py:347-424 | parsing succeeds exactly on convertible policy values and non-empty well-formed lists |
| PoolFile.ParsedPoolSurvivesSaving | app/egress/pool.py:435-444 | parsing a saved parsed pool succeeds and gives the same pool |
| Consensus.CountVotes | app/egress/myip.py:240-243 | every address is counted exactly |
| Consensus.Elect | app/egress/myip.py:239-247 | the elected address has most votes, ties going to the greatest text, and the agreement is its count |
| Consensus.WinnerIsUnique | app/egress/myip.py:246-247 | at most one address wins |
| Consensus.ElectionIgnoresOrder | app/egress/myip.py:231-247 | the winner is the same for every completion order |
| Consensus.Judge | app/egress/myip.py:304-346 | a definite country if and only if one is named strictly most often among the sources that agree, allowed unless denied |
| Consensus.MajorityIgnoresOrder | app/egress/myip.py:304-346 | the verdict is the same for every completion order |
| Cookies.OffersMembers | app/cookiecloud/client.py:143-166 | a cookie is considered if and only if it is usable and its domain covers an approved host |
| Cookies.LastWinsMeans | app/cookiecloud/client.py:167-168 | the value of a name is that of the last considered cookie of that name |
| Cookies.FilterCookies | app/cookiecloud/client.py:125-171 | the nested loops compute the last-wins map of the considered cookies, and the errors |
| Cookies.CookieHeader | app/cookiecloud/client.py:174-175 | the header prints the pairs in ascending order of names |
| Cookies.ReadAfterPrint | app/cookiecloud/client.py:174-175 | printed pairs can be read back |
| Cookies.HeaderDeterminesPairs | app/cookiecloud/client.py:174-175 | two maps with the same header are equal |
| Cookies.FilteredIsPrintable | app/cookiecloud/client.py:36-36 | what the filter lets through meets the printer's conditions |
| Cookies.EvpBytesToKey | app/cookiecloud/client.py:71-79 | key and vector are cut from the digest chain, which stops at the first sufficient length |
| Cookies.UnpaddedIff | app/cookiecloud/client.py:113-117 | a payload is accepted with a content if and only if it is that content and one of the sixteen paddings |

## Left out

- ProtocolTheorems.AtMostOneRunLinksATarget: holds because nothing removes a media file; a later deletion through other routes is not modelled.
- Downloader.SafeDownloadExecutor.Execute: asynchronous cancellation of the coroutine, descriptors, permission bits, symbolic links and `fsync` are not modelled; the chunk reader's timeouts are the broken item.
- Downloader.SafeDownloadExecutor.CommitProgress: SQLAlchemy's tracking of unchanged fields is not modelled; the pending values are written.
- Tasks.RowOpKeeps: the concurrency limit, timestamps, events and the deletion of closed history rows are not modelled.
- ProtocolTheorems.StageNeverOverstates: the index that `index_coordinated` and `durable_verified` also speak of is not part of the machine; its agreement at the end of a run is part of `Downloader.SafeDownloadExecutor.VerifyCommitted`.
- LocalExecution.LinkCommittedEndsWellIff: other sessions change the row during the run, but a whole second run of the same task, with its own stages and link commit in between, is not modelled.
- Simulation.StampIsAStep: a resumed run is taken to find the fact still naming its file, since the machine leaves an unchanged fact alone where the class writes it again.
- RunSimulation.LogIsARun: the machine is taken to be where the session is whenever it is the executor's turn; the environment of the imperative run is arbitrary and need not be a run of the machine.
- LocalConfirmation.ConfirmationIsBijective: the scan of the media directory is a parameter, and hashing is injective.
- LocalExecution.LocalTaskRunner.Execute: what the index refresh does is a parameter; the two stages of index and recovery work are one stage.
- PoolFile.ParsedPoolSurvivesSaving: upper case and blanks are those of ASCII, values have their declared types, and the fields of health that nothing reads are dropped.
- Tokens.DownloadTokenRoundTrip: the validity checks of a plan's fields are not modelled; a plan that was built is taken to be valid.
- Cookies.FilterCookies: entries of the wrong JSON type are not modelled.
- Normalisation of relative targets, discovery of assets, previews of downloads, translations, routes and templates: mostly single checks and plumbing.
- Integrity tasks rewrite the stage of an existing row when they are created again; this is not part of the model.
- Probing, geolocation, quality scoring, decryption and storage of cookie files: results are arbitrary inputs.
