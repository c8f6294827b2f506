/**
 The download protocol as a state machine: one step is one database transaction, one file system call or one
 event of the environment, and the steps of any number of executors interleave.
 */
module Protocol {
  import opened Basics
  import opened Tasks
  import opened Transfer

  /** A temporary file as the database remembers it. */
  datatype TempRef = TempRef(name: string, inode: int)

  datatype DownloadFact = DownloadFact(temp: Option<TempRef>, resumeOffset: nat, maxBytes: nat,
                                       expectedSha256: Option<Digest>)

  datatype LinkRow = LinkRow(asset: AssetKey, path: string, mimeType: string, sizeBytes: nat, sha256: Digest)

  /** Two directories of names on one device, and the content behind the names. */
  datatype Files = Files(temp: map<string, int>, media: map<string, int>, data: map<int, Bytes>)

  function NamesOf(directory: map<string, int>, inode: int): set<string> {
    set name | name in directory && directory[name] == inode
  }

  function LinkCount(files: Files, inode: int): nat {
    |NamesOf(files.temp, inode)| + |NamesOf(files.media, inode)|
  }

  /** Where a run of the executor stands; the failing phases are the exception handler. */
  datatype Phase =
    | Begun                                    // lease asserted
    | Loaded(seen: DownloadFact)               // row and fact read
    | Opened                                   // temporary file open
    | Streaming                                // `downloading` committed
    | Writing(chunk: Bytes, written: nat, until: int) // heartbeat done, transaction open
    | Checked                                  // `verified` committed
    | Linked                                   // target name created
    | Unlinked                                 // temporary name removed
    | Recorded                                 // `published` committed
    | RowLinked                                // `db_linked` committed
    | Indexed                                  // `index_coordinated` committed
    | Finished                                 // SUCCEEDED committed
    | Failing(code: ErrorCode)                 // handler: session rolled back
    | Settling(code: ErrorCode)                // handler: task row dealt with
    | Clearing                                 // handler: temporary name removed
    | Ended

  datatype Executor = Executor(
    task: int,
    owner: string,
    generation: nat,
    phase: Phase,
    temp: Option<TempRef>,
    created: bool,
    offset: nat,
    digested: Bytes,
    expectedBytes: Option<nat>,
    mimeType: string,
    published: bool)

  /**
   `sniff` gives the type that a content's first bytes announce, if any.
   `maker` and `sealed` are history: which task created an inode, and which inodes a `published` commit has covered.
   `cutShort` holds the inodes that a write transaction extended without committing.
   */
  datatype State = State(
    sniff: imap<Bytes, string>,
    now: int,
    tasks: map<int, TaskRow>,
    facts: map<int, DownloadFact>,
    links: map<int, LinkRow>,
    files: Files,
    fence: Option<int>,
    executors: map<int, Executor>,
    maker: map<int, int>,
    sealed: set<int>,
    cutShort: set<int>)

  function Sniffed(s: State, content: Bytes): Option<string> {
    if content in s.sniff then Some(s.sniff[content]) else None
  }

  datatype Step =
    | Tick(to: int)
    | NewTask(task: int, row: TaskRow, fact: DownloadFact)
    | RowStep(task: int, op: RowOp)
    | ForeignFile(name: string, inode: int, content: Bytes)
    | Sweep(name: string)
    | Start(e: int, task: int, owner: string, generation: nat)
    | Load(e: int)
    | Open(e: int, name: string, inode: int)
    | CommitDownloading(e: int, ttl: nat, ending: Ending)
    | Receive(e: int, ttl: nat, chunk: Bytes)
    | WriteSome(e: int, count: nat)
    | CommitChunk(e: int, ending: Ending)
    | CommitVerified(e: int, ttl: nat, ending: Ending)
    | LinkTarget(e: int)
    | UnlinkTemp(e: int)
    | CommitPublished(e: int, ttl: nat, ending: Ending)
    | CommitDbLinked(e: int, ttl: nat, ending: Ending)
    | CommitIndexed(e: int, ttl: nat, ending: Ending)
    | CommitSucceeded(e: int, version: nat, ending: Ending)
    | MarkUnknown(e: int, version: nat)
    | Raise(e: int, code: ErrorCode)
    | HandlerTransition(e: int, version: nat)
    | HandlerUnlink(e: int)
    | HandlerClear(e: int)
    | Finish(e: int)
    | Crash(e: int)

  predicate Alive(s: State, e: int) {
    && e in s.executors
    && s.executors[e].task in s.tasks && s.executors[e].task in s.facts
  }

  function RowOf(s: State, e: int): TaskRow
    requires Alive(s, e)
  {
    s.tasks[s.executors[e].task]
  }

  function FactOf(s: State, e: int): DownloadFact
    requires Alive(s, e)
  {
    s.facts[s.executors[e].task]
  }

  /** The row still carries the generation this executor was started with. */
  predicate Current(s: State, e: int) {
    Alive(s, e) && RowOf(s, e).leaseGeneration == s.executors[e].generation
  }

  /** The conditional UPDATE of a heartbeat would match a row, and the write fence is free. */
  predicate CanBeat(s: State, e: int, ttl: nat) {
    && Alive(s, e)
    && s.fence.None?
    && HoldsLease(RowOf(s, e), s.executors[e].owner, s.executors[e].generation, s.now)
    && 5 <= ttl <= 300
  }

  function Beaten(s: State, e: int, ttl: nat, bytes: nat, stage: Stage): TaskRow
    requires Alive(s, e)
  {
    RowOf(s, e).(leaseExpiresAt := Some(s.now + ttl), bytesProcessed := bytes, stage := stage)
  }

  function Moved(s: State, e: int, phase: Phase): State
    requires e in s.executors
  {
    s.(executors := s.executors[e := s.executors[e].(phase := phase)])
  }

  /** A fenced commit: `written` is the state it produces, taken or not as the ending says. */
  function Committed(s: State, written: State, e: int, phase: Phase, ending: Ending): State
    requires e in s.executors && written.executors == s.executors
  {
    match ending
    case Acked => Moved(written, e, phase)
    case RaisedBefore => Moved(s, e, Failing(ProviderError))
    case RaisedAfter => Moved(written, e, Failing(ProviderError))
  }

  function Target(s: State, e: int): string
    requires Alive(s, e)
  {
    RowOf(s, e).target
  }

  function Inode(s: State, e: int): int
    requires e in s.executors && s.executors[e].temp.Some?
  {
    s.executors[e].temp.value.inode
  }

  predicate InPhase(s: State, e: int, phase: Phase) {
    Alive(s, e) && s.executors[e].phase == phase
  }

  predicate HasFile(s: State, e: int) {
    e in s.executors && s.executors[e].temp.Some? && Inode(s, e) in s.files.data
  }

  /** The open transaction of a failing or dying executor is rolled back; bytes it already wrote stay. */
  function RolledBack(s: State, e: int, phase: Phase): State
    requires e in s.executors
  {
    var x := s.executors[e];
    var cut := if x.phase.Writing? && x.phase.written > 0 && x.temp.Some? then {x.temp.value.inode} else {};
    Moved(s.(fence := if s.fence == Some(e) then None else s.fence, cutShort := s.cutShort + cut), e, phase)
  }

  predicate LeaseFailure(code: ErrorCode) {
    code == LeaseLost || code == LeaseConflict
  }

  /** The state the handler asks for, when the row is still running or being cancelled. */
  function HandlerTarget(code: ErrorCode, published: bool): TaskState {
    if code == CancelRaised then Cancelled
    else if published || code == UnknownOutcome then OutcomeUnknown
    else Failed
  }

  /** The unique key on item, provider and asset; the source is not part of it. */
  predicate SameAsset(a: AssetKey, b: AssetKey) {
    a.itemId == b.itemId && a.providerKey == b.providerKey && a.assetHash == b.assetHash
  }

  function LinkRowOf(s: State, e: int): LinkRow
    requires Alive(s, e)
  {
    var x := s.executors[e];
    LinkRow(RowOf(s, e).asset, Target(s, e), x.mimeType, |x.digested|, Sha256(x.digested))
  }

  /** Time passes. */
  predicate CanTick(s: State, to: int) {
    s.now <= to
  }

  function DoTick(s: State, to: int): State
    requires CanTick(s, to)
  {
    s.(now := to)
  }

  /** A confirmed plan creates a queued task and its fact. */
  predicate CanNewTask(s: State, t: int, row: TaskRow, fact: DownloadFact) {
    && s.fence.None? && t !in s.tasks && t !in s.facts && t !in s.links
    && row.state == Queued && !row.cancelRequested && row.leaseOwner.None? && row.stage == NotStarted
       && row.leaseGeneration == 0 && row.sha256.None?
    && fact.temp.None? && fact.resumeOffset == 0
  }

  function DoNewTask(s: State, t: int, row: TaskRow, fact: DownloadFact): State
    requires CanNewTask(s, t, row, fact)
  {
    s.(tasks := s.tasks[t := row], facts := s.facts[t := fact])
  }

  /** A control operation on the row: start, pause, cancel, retry, lease acquisition, restart recovery. */
  predicate CanRowStep(s: State, t: int, op: RowOp) {
    s.fence.None? && t in s.tasks && !(op.MoveTo? && op.target == Succeeded) && ApplyRowOp(s.tasks[t], op, s.now).Some?
  }

  function DoRowStep(s: State, t: int, op: RowOp): State
    requires CanRowStep(s, t, op)
  {
    s.(tasks := s.tasks[t := ApplyRowOp(s.tasks[t], op, s.now).value])
  }

  /** Another media operation creates a file at an unused name. */
  predicate CanForeignFile(s: State, name: string, inode: int) {
    name !in s.files.media && inode !in s.files.data
  }

  function DoForeignFile(s: State, name: string, inode: int, content: Bytes): State
    requires CanForeignFile(s, name, inode)
  {
    s.(files := s.files.(media := s.files.media[name := inode], data := s.files.data[inode := content]))
  }

  /** The stale-file cleanup removes an unreferenced temporary name. */
  predicate CanSweep(s: State, name: string) {
    && name in s.files.temp && LinkCount(s.files, s.files.temp[name]) == 1
    && forall t :: t in s.facts && s.facts[t].temp.Some? ==> s.facts[t].temp.value.name != name
  }

  function DoSweep(s: State, name: string): State
    requires CanSweep(s, name)
  {
    s.(files := s.files.(temp := s.files.temp - {name}))
  }

  /** A run begins: the initial lease assertion holds, and no other run was given this generation. */
  predicate CanStart(s: State, e: int, t: int, owner: string, generation: nat) {
    && e !in s.executors && t in s.tasks && t in s.facts
    && HoldsLease(s.tasks[t], owner, generation, s.now)
    && forall d :: d in s.executors ==> s.executors[d].task != t || s.executors[d].generation != generation
  }

  function DoStart(s: State, e: int, t: int, owner: string, generation: nat): State
    requires CanStart(s, e, t, owner, generation)
  {
    s.(executors := s.executors[e := Executor(t, owner, generation, Begun, None, false, 0, [], None, "", false)])
  }

  /** The row and the fact are read. */
  predicate CanLoad(s: State, e: int) {
    InPhase(s, e, Begun)
  }

  function DoLoad(s: State, e: int): State
    requires CanLoad(s, e)
  {
    s.(executors := s.executors[e := s.executors[e].(
         phase := Loaded(FactOf(s, e)), expectedBytes := RowOf(s, e).expectedBytes, mimeType := RowOf(s, e).mimeType)])
  }

  /** The temporary file is resumed or created. */
  predicate CanOpen(s: State, e: int, name: string, inode: int) {
    && Alive(s, e) && s.executors[e].phase.Loaded?
    && inode !in s.files.data && name !in s.files.temp
  }

  /** A recorded file must still be the same inode, singly linked and exactly as long as the offset. */
  function ResumeRefusal(s: State, seen: TempRef, offset: nat): Option<ErrorCode> {
    if seen.name !in s.files.temp || s.files.temp[seen.name] != seen.inode || seen.inode !in s.files.data
       || LinkCount(s.files, seen.inode) != 1 then Some(StorageUnsafe)
    else if |s.files.data[seen.inode]| != offset then Some(SnapshotChanged)
    else None
  }

  function Resumed(s: State, e: int, seen: TempRef): State
    requires e in s.executors && seen.inode in s.files.data
  {
    var content := s.files.data[seen.inode];
    s.(executors := s.executors[e := s.executors[e].(phase := Opened, temp := Some(seen), created := false,
                                                     offset := |content|, digested := content)])
  }

  function Created(s: State, e: int, name: string, inode: int): State
    requires e in s.executors
  {
    s.(files := s.files.(temp := s.files.temp[name := inode], data := s.files.data[inode := []]),
       maker := s.maker[inode := s.executors[e].task],
       executors := s.executors[e := s.executors[e].(
         phase := Opened, temp := Some(TempRef(name, inode)), created := true, offset := 0, digested := [])])
  }

  function DoOpen(s: State, e: int, name: string, inode: int): State
    requires CanOpen(s, e, name, inode)
  {
    var seen := s.executors[e].phase.seen;
    if seen.temp.None? then Created(s, e, name, inode)
    else
      var refusal := ResumeRefusal(s, seen.temp.value, seen.resumeOffset);
      if refusal.Some? then Moved(s, e, Failing(refusal.value)) else Resumed(s, e, seen.temp.value)
  }

  /** Progress commit `downloading`; a new temporary file is recorded with it. */
  predicate CanCommitDownloading(s: State, e: int, ttl: nat) {
    InPhase(s, e, Opened) && CanBeat(s, e, ttl) && HasFile(s, e)
  }

  function DoCommitDownloading(s: State, e: int, ttl: nat, ending: Ending): State
    requires CanCommitDownloading(s, e, ttl)
  {
    var x := s.executors[e];
    var fact := if x.created then FactOf(s, e).(temp := x.temp, resumeOffset := 0) else FactOf(s, e);
    Committed(s, s.(tasks := s.tasks[x.task := Beaten(s, e, ttl, |x.digested|, Downloading)],
                    facts := s.facts[x.task := fact]),
              e, Streaming, ending)
  }

  /** A chunk arrives and its heartbeat takes the write fence. */
  predicate CanReceive(s: State, e: int, ttl: nat, chunk: Bytes) {
    && InPhase(s, e, Streaming) && CanBeat(s, e, ttl) && chunk != []
    && |s.executors[e].digested| + |chunk| <= FactOf(s, e).maxBytes
  }

  function DoReceive(s: State, e: int, ttl: nat, chunk: Bytes): State
    requires CanReceive(s, e, ttl, chunk)
  {
    Moved(s.(fence := Some(e)), e, Writing(chunk, 0, s.now + ttl))
  }

  /** One write call appends part of the chunk. */
  predicate CanWriteSome(s: State, e: int, count: nat) {
    && Alive(s, e) && s.executors[e].phase.Writing? && HasFile(s, e)
    && 1 <= count <= |s.executors[e].phase.chunk| - s.executors[e].phase.written
  }

  function DoWriteSome(s: State, e: int, count: nat): State
    requires CanWriteSome(s, e, count)
  {
    var x := s.executors[e];
    var piece := x.phase.chunk[x.phase.written..x.phase.written + count];
    Moved(s.(files := s.files.(data := s.files.data[Inode(s, e) := s.files.data[Inode(s, e)] + piece])),
          e, x.phase.(written := x.phase.written + count))
  }

  /** The offset is updated and the transaction committed. */
  predicate CanCommitChunk(s: State, e: int) {
    && Alive(s, e) && s.executors[e].phase.Writing?
    && s.executors[e].phase.written == |s.executors[e].phase.chunk|
  }

  function DoCommitChunk(s: State, e: int, ending: Ending): State
    requires CanCommitChunk(s, e)
  {
    var x := s.executors[e];
    var content := x.digested + x.phase.chunk;
    if ending.RaisedBefore? then RolledBack(s, e, Failing(ProviderError))
    else
      s.(fence := if s.fence == Some(e) then None else s.fence,
         tasks := s.tasks[x.task := RowOf(s, e).(
           leaseExpiresAt := Some(x.phase.until), bytesProcessed := |content|, stage := Downloading)],
         facts := s.facts[x.task := FactOf(s, e).(resumeOffset := |content|)],
         executors := s.executors[e := x.(digested := content,
                                          phase := if ending.Acked? then Streaming else Failing(ProviderError))])
  }

  /** The final checks pass and `verified` is committed with the content facts. */
  predicate CanCommitVerified(s: State, e: int, ttl: nat) {
    && InPhase(s, e, Streaming) && CanBeat(s, e, ttl) && HasFile(s, e)
    && var x := s.executors[e];
       && |x.digested| != x.offset
       && Acceptable(Demand(x.mimeType, x.expectedBytes, FactOf(s, e).expectedSha256, FactOf(s, e).maxBytes),
                     x.digested, Sniffed(s, x.digested))
       && LinkCount(s.files, Inode(s, e)) == 1
       && (FactOf(s, e).temp.Some? ==> FactOf(s, e).temp.value.inode == Inode(s, e))
  }

  function DoCommitVerified(s: State, e: int, ttl: nat, ending: Ending): State
    requires CanCommitVerified(s, e, ttl)
  {
    var x := s.executors[e];
    var row := Beaten(s, e, ttl, |x.digested|, Verified).(
      sha256 := Some(Sha256(x.digested)), expectedBytes := Some(|x.digested|), mimeType := x.mimeType);
    Committed(s, s.(tasks := s.tasks[x.task := row],
                    facts := s.facts[x.task := FactOf(s, e).(resumeOffset := |x.digested|)]),
              e, Checked, ending)
  }

  /** The target name is created, unless it exists. No lease is checked by this call itself. */
  predicate CanLinkTarget(s: State, e: int) {
    && InPhase(s, e, Checked) && HasFile(s, e)
    && s.executors[e].temp.value.name in s.files.temp && Target(s, e) !in s.files.media
  }

  function DoLinkTarget(s: State, e: int): State
    requires CanLinkTarget(s, e)
  {
    var x := s.executors[e];
    s.(files := s.files.(media := s.files.media[Target(s, e) := s.files.temp[x.temp.value.name]]),
       executors := s.executors[e := x.(phase := Linked, published := true)])
  }

  /** The published name is compared with the open file and the temporary name removed. */
  predicate CanUnlinkTemp(s: State, e: int) {
    && InPhase(s, e, Linked) && HasFile(s, e)
    && s.executors[e].temp.value.name in s.files.temp
    && Target(s, e) in s.files.media && s.files.media[Target(s, e)] == Inode(s, e)
    && |s.files.data[Inode(s, e)]| == |s.executors[e].digested|
  }

  function DoUnlinkTemp(s: State, e: int): State
    requires CanUnlinkTemp(s, e)
  {
    Moved(s.(files := s.files.(temp := s.files.temp - {s.executors[e].temp.value.name})), e, Unlinked)
  }

  /** Progress commit `published`; the temporary file is forgotten. */
  predicate CanCommitPublished(s: State, e: int, ttl: nat) {
    InPhase(s, e, Unlinked) && CanBeat(s, e, ttl) && HasFile(s, e)
  }

  function DoCommitPublished(s: State, e: int, ttl: nat, ending: Ending): State
    requires CanCommitPublished(s, e, ttl)
  {
    var x := s.executors[e];
    Committed(s, s.(tasks := s.tasks[x.task := Beaten(s, e, ttl, |x.digested|, Published)],
                    facts := s.facts[x.task := FactOf(s, e).(temp := None, resumeOffset := |x.digested|)],
                    sealed := s.sealed + {Inode(s, e)}),
              e, Recorded, ending)
  }

  /** The link row is inserted and `db_linked` committed. */
  predicate CanCommitDbLinked(s: State, e: int, ttl: nat) {
    && InPhase(s, e, Recorded) && CanBeat(s, e, ttl)
    && s.executors[e].task !in s.links
    && forall t :: t in s.links ==> s.links[t].path != Target(s, e) && !SameAsset(s.links[t].asset, RowOf(s, e).asset)
  }

  function DoCommitDbLinked(s: State, e: int, ttl: nat, ending: Ending): State
    requires CanCommitDbLinked(s, e, ttl)
  {
    var x := s.executors[e];
    Committed(s, s.(tasks := s.tasks[x.task := Beaten(s, e, ttl, |x.digested|, DbLinked)],
                    facts := s.facts[x.task := FactOf(s, e).(resumeOffset := |x.digested|)],
                    links := s.links[x.task := LinkRowOf(s, e)]),
              e, RowLinked, ending)
  }

  /** Progress commit `index_coordinated`. */
  predicate CanCommitIndexed(s: State, e: int, ttl: nat) {
    InPhase(s, e, RowLinked) && CanBeat(s, e, ttl)
  }

  function DoCommitIndexed(s: State, e: int, ttl: nat, ending: Ending): State
    requires CanCommitIndexed(s, e, ttl)
  {
    var x := s.executors[e];
    Committed(s, s.(tasks := s.tasks[x.task := Beaten(s, e, ttl, |x.digested|, IndexCoordinated)],
                    facts := s.facts[x.task := FactOf(s, e).(resumeOffset := |x.digested|)]),
              e, Indexed, ending)
  }

  /** The final transition: guarded by a freshly read version, not by the lease. */
  predicate CanCommitSucceeded(s: State, e: int, version: nat) {
    InPhase(s, e, Indexed) && s.fence.None? && Transition(RowOf(s, e), Succeeded, version).Some?
  }

  function DoCommitSucceeded(s: State, e: int, version: nat, ending: Ending): State
    requires CanCommitSucceeded(s, e, version)
  {
    var row := Transition(RowOf(s, e), Succeeded, version).value.(stage := DurableVerified);
    Committed(s, s.(tasks := s.tasks[s.executors[e].task := row]), e, Finished, ending)
  }

  /** The handler downgrades an apparent success that it could not verify. */
  predicate CanMarkUnknown(s: State, e: int, version: nat) {
    && Alive(s, e) && s.executors[e].phase.Failing? && s.executors[e].published && s.fence.None?
    && MarkVerificationUnknown(RowOf(s, e), version, DurableVerified).Some?
  }

  function DoMarkUnknown(s: State, e: int, version: nat): State
    requires CanMarkUnknown(s, e, version)
  {
    s.(tasks := s.tasks[s.executors[e].task := MarkVerificationUnknown(RowOf(s, e), version, DurableVerified).value])
  }

  /**
   The run raises: the session is rolled back and the handler entered. In the handler it is the proof that nothing was
   written that can fail after an error of the database.
   */
  predicate CanRaise(s: State, e: int) {
    && e in s.executors
    && var p := s.executors[e].phase;
       p == Failing(ProviderError) || !(p.Failing? || p.Settling? || p.Clearing? || p.Ended?)
  }

  /** A failed first assertion of the lease is raised as it is, before the handler's scope. */
  function RaisedTo(p: Phase, code: ErrorCode): Phase {
    if p.Begun? then Ended else if p.Failing? then Failing(UnknownOutcome) else Failing(code)
  }

  function DoRaise(s: State, e: int, code: ErrorCode): State
    requires CanRaise(s, e)
  {
    RolledBack(s, e, RaisedTo(s.executors[e].phase, code))
  }

  /** The handler records the outcome on a row that is still running or being cancelled. */
  predicate CanHandlerTransition(s: State, e: int, version: nat) {
    && Alive(s, e) && s.executors[e].phase.Failing? && s.fence.None?
    && var x := s.executors[e];
       && !LeaseFailure(x.phase.code) && x.phase.code != PauseRaised
       && (RowOf(s, e).state == Running || RowOf(s, e).state == Cancelling)
       && Transition(RowOf(s, e), HandlerTarget(x.phase.code, x.published), version).Some?
  }

  function DoHandlerTransition(s: State, e: int, version: nat): State
    requires CanHandlerTransition(s, e, version)
  {
    var x := s.executors[e];
    var target := HandlerTarget(x.phase.code, x.published);
    Moved(s.(tasks := s.tasks[x.task := Transition(RowOf(s, e), target, version).value]), e, Settling(x.phase.code))
  }

  /** The handler removes the temporary name. */
  predicate CanHandlerUnlink(s: State, e: int) {
    && e in s.executors && (s.executors[e].phase.Failing? || s.executors[e].phase.Settling?)
    && !LeaseFailure(s.executors[e].phase.code) && s.executors[e].phase.code != PauseRaised
    && !s.executors[e].published && s.executors[e].temp.Some?
    && s.executors[e].temp.value.name in s.files.temp
  }

  function DoHandlerUnlink(s: State, e: int): State
    requires CanHandlerUnlink(s, e)
  {
    Moved(s.(files := s.files.(temp := s.files.temp - {s.executors[e].temp.value.name})), e, Clearing)
  }

  /** The handler forgets the temporary file. */
  predicate CanHandlerClear(s: State, e: int) {
    Alive(s, e) && s.executors[e].phase == Clearing && s.fence.None?
  }

  function DoHandlerClear(s: State, e: int): State
    requires CanHandlerClear(s, e)
  {
    Moved(s.(facts := s.facts[s.executors[e].task := FactOf(s, e).(temp := None, resumeOffset := 0)]), e, Ended)
  }

  /** The run returns or re-raises. */
  predicate CanFinish(s: State, e: int) {
    e in s.executors && (s.executors[e].phase.Failing? || s.executors[e].phase.Settling?
                         || s.executors[e].phase.Clearing?
                         || s.executors[e].phase.Finished?)
  }

  function DoFinish(s: State, e: int): State
    requires CanFinish(s, e)
  {
    Moved(s, e, Ended)
  }

  /** The process dies: its open transaction is rolled back. */
  predicate CanCrash(s: State, e: int) {
    e in s.executors && !s.executors[e].phase.Ended?
  }

  function DoCrash(s: State, e: int): State
    requires CanCrash(s, e)
  {
    RolledBack(s, e, Ended)
  }

  /** A step whose guard fails leaves the world as it is. */
  function After(s: State, step: Step): State {
    match step
    case Tick(to) => if CanTick(s, to) then DoTick(s, to) else s
    case NewTask(t, row, fact) => if CanNewTask(s, t, row, fact) then DoNewTask(s, t, row, fact) else s
    case RowStep(t, op) => if CanRowStep(s, t, op) then DoRowStep(s, t, op) else s
    case ForeignFile(name, inode, content) =>
      if CanForeignFile(s, name, inode) then DoForeignFile(s, name, inode, content) else s
    case Sweep(name) => if CanSweep(s, name) then DoSweep(s, name) else s
    case Start(e, t, owner, generation) =>
      if CanStart(s, e, t, owner, generation) then DoStart(s, e, t, owner, generation) else s
    case Load(e) => if CanLoad(s, e) then DoLoad(s, e) else s
    case Open(e, name, inode) => if CanOpen(s, e, name, inode) then DoOpen(s, e, name, inode) else s
    case CommitDownloading(e, ttl, ending) =>
      if CanCommitDownloading(s, e, ttl) then DoCommitDownloading(s, e, ttl, ending) else s
    case Receive(e, ttl, chunk) => if CanReceive(s, e, ttl, chunk) then DoReceive(s, e, ttl, chunk) else s
    case WriteSome(e, count) => if CanWriteSome(s, e, count) then DoWriteSome(s, e, count) else s
    case CommitChunk(e, ending) => if CanCommitChunk(s, e) then DoCommitChunk(s, e, ending) else s
    case CommitVerified(e, ttl, ending) =>
      if CanCommitVerified(s, e, ttl) then DoCommitVerified(s, e, ttl, ending) else s
    case LinkTarget(e) => if CanLinkTarget(s, e) then DoLinkTarget(s, e) else s
    case UnlinkTemp(e) => if CanUnlinkTemp(s, e) then DoUnlinkTemp(s, e) else s
    case CommitPublished(e, ttl, ending) =>
      if CanCommitPublished(s, e, ttl) then DoCommitPublished(s, e, ttl, ending) else s
    case CommitDbLinked(e, ttl, ending) =>
      if CanCommitDbLinked(s, e, ttl) then DoCommitDbLinked(s, e, ttl, ending) else s
    case CommitIndexed(e, ttl, ending) => if CanCommitIndexed(s, e, ttl) then DoCommitIndexed(s, e, ttl, ending) else s
    case CommitSucceeded(e, version, ending) =>
      if CanCommitSucceeded(s, e, version) then DoCommitSucceeded(s, e, version, ending) else s
    case MarkUnknown(e, version) => if CanMarkUnknown(s, e, version) then DoMarkUnknown(s, e, version) else s
    case Raise(e, code) => if CanRaise(s, e) then DoRaise(s, e, code) else s
    case HandlerTransition(e, version) =>
      if CanHandlerTransition(s, e, version) then DoHandlerTransition(s, e, version) else s
    case HandlerUnlink(e) => if CanHandlerUnlink(s, e) then DoHandlerUnlink(s, e) else s
    case HandlerClear(e) => if CanHandlerClear(s, e) then DoHandlerClear(s, e) else s
    case Finish(e) => if CanFinish(s, e) then DoFinish(s, e) else s
    case Crash(e) => if CanCrash(s, e) then DoCrash(s, e) else s
  }

  /** The steps that an executor takes, once it has begun. */
  predicate HasMover(step: Step) {
    !step.Tick? && !step.NewTask? && !step.RowStep? && !step.ForeignFile? && !step.Sweep? && !step.Start?
  }

  function Run(s: State, steps: seq<Step>): State
    decreases |steps|
  {
    if steps == [] then s else Run(After(s, steps[0]), steps[1..])
  }

  /** A fresh installation: nothing downloaded yet, any media files. */
  predicate Initial(s: State) {
    && s.tasks == map[] && s.facts == map[] && s.links == map[]
    && s.files.temp == map[] && (forall name :: name in s.files.media ==> s.files.media[name] in s.files.data)
    && s.fence == None && s.executors == map[] && s.maker == map[] && s.sealed == {} && s.cutShort == {}
  }
}
