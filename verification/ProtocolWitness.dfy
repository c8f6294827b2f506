/** Concrete runs: the states that the limits speak of are reached, and a download can succeed. */
module ProtocolWitness {
  import opened Basics
  import opened Tasks
  import opened Transfer
  import opened Protocol
  import opened ProtocolInvariant
  import opened ProtocolFrames
  import opened ProtocolShapes
  import opened ProtocolSteps
  import opened ProtocolTheorems
  import opened ProtocolLimits
  import opened ProtocolBars
  import opened ProtocolRecovery
  import opened ProtocolHandler

  /** A content that begins as a JPEG file does, and one that goes on after it. */
  const JPEG: Bytes := [0xFF, 0xD8, 0xFF]
  const LONGER: Bytes := [0xFF, 0xD8, 0xFF, 0xE0]

  /** The smallest and the greatest size limit that a plan may have. */
  const LIMIT: nat := 1024
  const GREATEST_LIMIT: nat := 10 * 1024 * 1024 * 1024

  lemma FirstByteRefuses(signatures: seq<Signature>, content: Bytes)
    requires signatures != [] && signatures[0].parts != [] && content != []
    requires var part := signatures[0].parts[0]; part.at == 0 && part.bytes != [] && part.bytes[0] != content[0]
    ensures FirstFit(signatures, content) == FirstFit(signatures[1..], content)
  {
    var part := signatures[0].parts[0];
    assert part in signatures[0].parts;
    if |part.bytes| <= |content| {
      assert content[part.at..part.at + |part.bytes|][0] == content[0];
    }
  }

  /** Whatever goes on after the first three bytes, the code takes it for a JPEG file. */
  lemma JpegsAreDetected(content: Bytes)
    requires JPEG <= content
    ensures DetectedMime(content) == Some("image/jpeg")
  {
    assert content[0] == JPEG[0];
    FirstByteRefuses(SIGNATURES, content);
    FirstByteRefuses(SIGNATURES[1..], content);
    FirstByteRefuses(SIGNATURES[1..][1..], content);
    var rest := SIGNATURES[1..][1..][1..];
    assert rest[0] == SIGNATURES[3];
    assert content[0..3] == JPEG;
  }

  ghost function Detection(): imap<Bytes, string> {
    imap content: Bytes | DetectedMime(content).Some? :: DetectedMime(content).value
  }

  /** Contents announce the types that the code detects, and the limits are such as a plan may have. */
  ghost predicate Genuine(s: State) {
    && (forall content: Bytes :: Sniffed(s, content) == DetectedMime(content))
    && (forall t :: t in s.facts ==> LIMIT <= s.facts[t].maxBytes <= GREATEST_LIMIT)
  }

  lemma WitnessIsGenuine(s: State)
    requires s.sniff == Detection() && s.facts.Keys == {1} && s.facts[1].maxBytes == LIMIT
    ensures Genuine(s)
  {
  }

  lemma JpegsAreSniffed(s: State, content: Bytes)
    requires s.sniff == Detection() && JPEG <= content
    ensures Sniffed(s, content) == Some("image/jpeg")
  {
    JpegsAreDetected(content);
  }

  /** A row whose content is verified. */
  function Row(state: TaskState, version: nat, stage: Stage, owner: Option<string>, generation: nat): TaskRow {
    EarlyRow(state, version, stage, Some(3), owner, generation).(bytesProcessed := 3, sha256 := Some(Sha256(JPEG)))
  }

  /** A row before `verified`; the plan may know the length already. */
  function EarlyRow(state: TaskState, version: nat, stage: Stage, expected: Option<nat>, owner: Option<string>,
                    generation: nat): TaskRow {
    TaskRow(state, version, stage, 0, expected, "image/jpeg", None, false, owner, generation,
            if owner.Some? then Some(30) else None, AssetKey(1, Some(1), "p", Sha256([1])), "a.jpg")
  }

  function Fact(temp: Option<TempRef>, offset: nat): DownloadFact {
    DownloadFact(temp, offset, LIMIT, None)
  }

  /** The name stands for the one that the code draws at random. */
  const TEMP: TempRef := TempRef("t", 7)

  function Runner(owner: string, generation: nat, phase: Phase, created: bool, offset: nat, content: Bytes,
                  expected: Option<nat>): Executor {
    Executor(1, owner, generation, phase, Some(TEMP), created, offset, content, expected, "image/jpeg", false)
  }

  ghost function World(row: TaskRow, fact: DownloadFact, content: Option<Bytes>, executors: map<int, Executor>): State {
    State(Detection(), 0, map[1 := row], map[1 := fact], map[],
          if content.Some? then Files(map["t" := 7], map[], map[7 := content.value]) else Files(map[], map[], map[]),
          None, executors, if content.Some? then map[7 := 1] else map[], {}, {})
  }

  ghost function Empty(): State {
    State(Detection(), 0, map[], map[], map[], Files(map[], map[], map[]), None,
          map[], map[], {}, {})
  }

  ghost function Leased1(expected: Option<nat>): State {
    World(EarlyRow(Running, 2, NotStarted, expected, Some("a"), 1), Fact(None, 0), None, map[])
  }

  ghost function Started1(expected: Option<nat>): State {
    World(EarlyRow(Running, 2, NotStarted, expected, Some("a"), 1), Fact(None, 0), None,
          map[1 := Executor(1, "a", 1, Begun, None, false, 0, [], None, "", false)])
  }

  ghost function Loaded1(expected: Option<nat>): State {
    World(EarlyRow(Running, 2, NotStarted, expected, Some("a"), 1), Fact(None, 0), None,
          map[1 := Executor(1, "a", 1, Loaded(Fact(None, 0)), None, false, 0, [], expected, "image/jpeg", false)])
  }

  ghost function Opened1(expected: Option<nat>): State {
    World(EarlyRow(Running, 2, NotStarted, expected, Some("a"), 1), Fact(None, 0), Some([]),
          map[1 := Runner("a", 1, Opened, true, 0, [], expected)])
  }

  ghost function Streaming1(expected: Option<nat>): State {
    World(EarlyRow(Running, 2, Downloading, expected, Some("a"), 1), Fact(Some(TEMP), 0), Some([]),
          map[1 := Runner("a", 1, Streaming, true, 0, [], expected)])
  }

  ghost function Receiving1(expected: Option<nat>, content: Bytes): State {
    World(EarlyRow(Running, 2, Downloading, expected, Some("a"), 1), Fact(Some(TEMP), 0), Some(content),
          map[1 := Runner("a", 1, Writing(JPEG, |content|, 30), true, 0, [], expected)]).(fence := Some(1))
  }

  ghost function Streamed1(expected: Option<nat>): State {
    World(EarlyRow(Running, 2, Downloading, expected, Some("a"), 1).(bytesProcessed := 3), Fact(Some(TEMP), 3),
          Some(JPEG),
          map[1 := Runner("a", 1, Streaming, true, 0, JPEG, expected)])
  }

  /** Paused after the last chunk, queued and leased again: a second run is about to read row and fact. */
  ghost function Interrupted(expected: Option<nat>): State {
    World(EarlyRow(Running, 5, Downloading, expected, Some("b"), 2).(bytesProcessed := 3), Fact(Some(TEMP), 3),
          Some(JPEG),
          map[1 := Runner("a", 1, Streaming, true, 0, JPEG, expected),
              2 := Executor(1, "b", 2, Begun, None, false, 0, [], None, "", false)])
  }

  ghost function Checked1(): State {
    World(Row(Running, 2, Verified, Some("a"), 1), Fact(Some(TEMP), 3), Some(JPEG),
          map[1 := Runner("a", 1, Checked, true, 0, JPEG, None)])
  }

  ghost function Leased2(): State {
    World(Row(Running, 5, Verified, Some("b"), 2), Fact(Some(TEMP), 3), Some(JPEG),
          map[1 := Runner("a", 1, Checked, true, 0, JPEG, None)])
  }

  ghost function Loaded2(): State {
    World(Row(Running, 5, Verified, Some("b"), 2), Fact(Some(TEMP), 3), Some(JPEG),
          map[1 := Runner("a", 1, Checked, true, 0, JPEG, None),
              2 := Executor(1, "b", 2, Loaded(Fact(Some(TEMP), 3)), None, false, 0, [], Some(3), "image/jpeg", false)])
  }

  ghost function Opened2(): State {
    World(Row(Running, 5, Verified, Some("b"), 2), Fact(Some(TEMP), 3), Some(JPEG),
          map[1 := Runner("a", 1, Checked, true, 0, JPEG, None), 2 := Runner("b", 2, Opened, false, 3, JPEG, Some(3))])
  }

  /** The second run has resumed the file that the first one is about to link. */
  ghost function Race(): State {
    World(Row(Running, 5, Downloading, Some("b"), 2), Fact(Some(TEMP), 3), Some(JPEG),
          map[1 := Runner("a", 1, Checked, true, 0, JPEG, None),
              2 := Runner("b", 2, Streaming, false, 3, JPEG, Some(3))])
  }

  lemma ReachableStep(s: State, step: Step, r: State)
    requires Reachable(s) && r == After(s, step)
    ensures Reachable(r)
  {
    assert [step][1..] == [] && Run(r, []) == r;
    assert Run(s, [step]) == r;
    ReachableRun(s, [step]);
  }

  lemma ReachNewTask(s: State, t: int, row: TaskRow, fact: DownloadFact)
    requires Reachable(s) && CanNewTask(s, t, row, fact)
    ensures Reachable(DoNewTask(s, t, row, fact))
  {
    ReachableStep(s, NewTask(t, row, fact), DoNewTask(s, t, row, fact));
  }

  lemma ReachRowStep(s: State, t: int, op: RowOp)
    requires Reachable(s) && CanRowStep(s, t, op)
    ensures Reachable(DoRowStep(s, t, op))
  {
    ReachableStep(s, RowStep(t, op), DoRowStep(s, t, op));
  }

  lemma ReachStart(s: State, e: int, t: int, owner: string, generation: nat)
    requires Reachable(s) && CanStart(s, e, t, owner, generation)
    ensures Reachable(DoStart(s, e, t, owner, generation))
  {
    ReachableStep(s, Start(e, t, owner, generation), DoStart(s, e, t, owner, generation));
  }

  lemma ReachLoad(s: State, e: int)
    requires Reachable(s) && CanLoad(s, e)
    ensures Reachable(DoLoad(s, e))
  {
    ReachableStep(s, Load(e), DoLoad(s, e));
  }

  lemma ReachOpen(s: State, e: int, name: string, inode: int)
    requires Reachable(s) && CanOpen(s, e, name, inode)
    ensures Reachable(DoOpen(s, e, name, inode))
  {
    ReachableStep(s, Open(e, name, inode), DoOpen(s, e, name, inode));
  }

  lemma ReachCommitDownloading(s: State, e: int, ttl: nat, ending: Ending)
    requires Reachable(s) && CanCommitDownloading(s, e, ttl)
    ensures Reachable(DoCommitDownloading(s, e, ttl, ending))
  {
    ReachableStep(s, CommitDownloading(e, ttl, ending), DoCommitDownloading(s, e, ttl, ending));
  }

  lemma ReachReceive(s: State, e: int, ttl: nat, chunk: Bytes)
    requires Reachable(s) && CanReceive(s, e, ttl, chunk)
    ensures Reachable(DoReceive(s, e, ttl, chunk))
  {
    ReachableStep(s, Receive(e, ttl, chunk), DoReceive(s, e, ttl, chunk));
  }

  lemma ReachWriteSome(s: State, e: int, count: nat)
    requires Reachable(s) && CanWriteSome(s, e, count)
    ensures Reachable(DoWriteSome(s, e, count))
  {
    ReachableStep(s, WriteSome(e, count), DoWriteSome(s, e, count));
  }

  lemma ReachCommitChunk(s: State, e: int, ending: Ending)
    requires Reachable(s) && CanCommitChunk(s, e)
    ensures Reachable(DoCommitChunk(s, e, ending))
  {
    ReachableStep(s, CommitChunk(e, ending), DoCommitChunk(s, e, ending));
  }

  lemma ReachCommitVerified(s: State, e: int, ttl: nat, ending: Ending)
    requires Reachable(s) && CanCommitVerified(s, e, ttl)
    ensures Reachable(DoCommitVerified(s, e, ttl, ending))
  {
    ReachableStep(s, CommitVerified(e, ttl, ending), DoCommitVerified(s, e, ttl, ending));
  }

  lemma ReachRaise(s: State, e: int, code: ErrorCode)
    requires Reachable(s) && CanRaise(s, e)
    ensures Reachable(DoRaise(s, e, code))
  {
    ReachableStep(s, Raise(e, code), DoRaise(s, e, code));
  }

  lemma ReachLinkTarget(s: State, e: int)
    requires Reachable(s) && CanLinkTarget(s, e)
    ensures Reachable(DoLinkTarget(s, e))
  {
    ReachableStep(s, LinkTarget(e), DoLinkTarget(s, e));
  }

  lemma ReachUnlinkTemp(s: State, e: int)
    requires Reachable(s) && CanUnlinkTemp(s, e)
    ensures Reachable(DoUnlinkTemp(s, e))
  {
    ReachableStep(s, UnlinkTemp(e), DoUnlinkTemp(s, e));
  }

  lemma ReachCommitPublished(s: State, e: int, ttl: nat, ending: Ending)
    requires Reachable(s) && CanCommitPublished(s, e, ttl)
    ensures Reachable(DoCommitPublished(s, e, ttl, ending))
  {
    ReachableStep(s, CommitPublished(e, ttl, ending), DoCommitPublished(s, e, ttl, ending));
  }

  lemma ReachCommitDbLinked(s: State, e: int, ttl: nat, ending: Ending)
    requires Reachable(s) && CanCommitDbLinked(s, e, ttl)
    ensures Reachable(DoCommitDbLinked(s, e, ttl, ending))
  {
    ReachableStep(s, CommitDbLinked(e, ttl, ending), DoCommitDbLinked(s, e, ttl, ending));
  }

  lemma ReachCommitIndexed(s: State, e: int, ttl: nat, ending: Ending)
    requires Reachable(s) && CanCommitIndexed(s, e, ttl)
    ensures Reachable(DoCommitIndexed(s, e, ttl, ending))
  {
    ReachableStep(s, CommitIndexed(e, ttl, ending), DoCommitIndexed(s, e, ttl, ending));
  }

  lemma ReachCommitSucceeded(s: State, e: int, version: nat, ending: Ending)
    requires Reachable(s) && CanCommitSucceeded(s, e, version)
    ensures Reachable(DoCommitSucceeded(s, e, version, ending))
  {
    ReachableStep(s, CommitSucceeded(e, version, ending), DoCommitSucceeded(s, e, version, ending));
  }

  lemma QueuedStep1(expected: Option<nat>)
    ensures var queued := EarlyRow(Queued, 1, NotStarted, expected, None, 0);
            && CanNewTask(Empty(), 1, queued, Fact(None, 0))
            && DoNewTask(Empty(), 1, queued, Fact(None, 0)) == World(queued, Fact(None, 0), None, map[])
  {
  }

  lemma ReachRow(row: TaskRow, op: RowOp, next: TaskRow, fact: DownloadFact, content: Option<Bytes>,
                 executors: map<int, Executor>)
    requires Reachable(World(row, fact, content, executors))
    requires ApplyRowOp(row, op, 0) == Some(next) && !(op.MoveTo? && op.target == Succeeded)
    ensures Reachable(World(next, fact, content, executors))
  {
    var s := World(row, fact, content, executors);
    assert DoRowStep(s, 1, op) == World(next, fact, content, executors);
    ReachRowStep(s, 1, op);
  }

  /** The row is started: it is running, and the owner gets a lease. */
  lemma ReachStarted(row: TaskRow, fact: DownloadFact, content: Option<Bytes>, executors: map<int, Executor>,
                     owner: string)
    requires Reachable(World(row, fact, content, executors))
    requires row.state == Queued && row.leaseExpiresAt.None? && !row.cancelRequested
    ensures Reachable(World(row.(state := Running, version := row.version + 1, leaseOwner := Some(owner),
                                 leaseGeneration := row.leaseGeneration + 1, leaseExpiresAt := Some(30)), fact, content,
                                     executors))
  {
    var running := row.(state := Running, version := row.version + 1);
    var leased := running.(leaseOwner := Some(owner), leaseGeneration := row.leaseGeneration + 1,
                           leaseExpiresAt := Some(30));
    ReachRow(row, MoveTo(Running, row.version), running, fact, content, executors);
    ReachRow(running, Leased(owner, running.version, 30), leased, fact, content, executors);
  }

  /** A run is stopped by pausing the row, which is then queued again. */
  lemma ReachRequeued(row: TaskRow, fact: DownloadFact, content: Option<Bytes>, executors: map<int, Executor>)
    requires Reachable(World(row, fact, content, executors)) && row.state == Running
    ensures Reachable(World(row.(state := Queued, version := row.version + 2, leaseOwner := None,
                                 leaseExpiresAt := None,
                                 cancelRequested := false), fact, content, executors))
  {
    var paused := row.(state := Paused, version := row.version + 1, leaseOwner := None, leaseExpiresAt := None);
    var queued := paused.(state := Queued, version := row.version + 2, cancelRequested := false);
    ReachRow(row, MoveTo(Paused, row.version), paused, fact, content, executors);
    ReachRow(paused, MoveTo(Queued, paused.version), queued, fact, content, executors);
  }

  lemma ReachLeased1(expected: Option<nat>)
    ensures Reachable(Leased1(expected))
  {
    assert Initial(Empty()) && Empty() == Run(Empty(), []);
    var queued := EarlyRow(Queued, 1, NotStarted, expected, None, 0);
    QueuedStep1(expected);
    ReachNewTask(Empty(), 1, queued, Fact(None, 0));
    ReachStarted(queued, Fact(None, 0), None, map[], "a");
  }

  lemma Started1Step(expected: Option<nat>)
    ensures CanStart(Leased1(expected), 1, 1, "a", 1) && DoStart(Leased1(expected), 1, 1, "a", 1) == Started1(expected)
  {
  }

  lemma ReachStarted1(expected: Option<nat>)
    ensures Reachable(Started1(expected))
  {
    ReachLeased1(expected);
    Started1Step(expected);
    ReachStart(Leased1(expected), 1, 1, "a", 1);
  }

  lemma Loaded1Step(expected: Option<nat>)
    ensures CanLoad(Started1(expected), 1) && DoLoad(Started1(expected), 1) == Loaded1(expected)
  {
  }

  lemma ReachLoaded1(expected: Option<nat>)
    ensures Reachable(Loaded1(expected))
  {
    ReachStarted1(expected);
    Loaded1Step(expected);
    ReachLoad(Started1(expected), 1);
  }

  lemma Opened1Step(expected: Option<nat>)
    ensures CanOpen(Loaded1(expected), 1, "t", 7) && DoOpen(Loaded1(expected), 1, "t", 7) == Opened1(expected)
  {
  }

  lemma ReachOpened1(expected: Option<nat>)
    ensures Reachable(Opened1(expected))
  {
    ReachLoaded1(expected);
    Opened1Step(expected);
    ReachOpen(Loaded1(expected), 1, "t", 7);
  }

  lemma Streaming1Step(expected: Option<nat>)
    ensures CanCommitDownloading(Opened1(expected), 1, 30)
            && DoCommitDownloading(Opened1(expected), 1, 30, Acked) == Streaming1(expected)
  {
  }

  lemma ReachStreaming1(expected: Option<nat>)
    ensures Reachable(Streaming1(expected))
  {
    ReachOpened1(expected);
    Streaming1Step(expected);
    ReachCommitDownloading(Opened1(expected), 1, 30, Acked);
  }

  lemma Receiving1Step(expected: Option<nat>)
    ensures CanReceive(Streaming1(expected), 1, 30, JPEG)
            && DoReceive(Streaming1(expected), 1, 30, JPEG) == Receiving1(expected, [])
  {
  }

  lemma ReachReceiving1(expected: Option<nat>)
    ensures Reachable(Receiving1(expected, []))
  {
    ReachStreaming1(expected);
    Receiving1Step(expected);
    ReachReceive(Streaming1(expected), 1, 30, JPEG);
  }

  lemma Received1Step(expected: Option<nat>)
    ensures CanWriteSome(Receiving1(expected, []), 1, 3)
            && DoWriteSome(Receiving1(expected, []), 1, 3) == Receiving1(expected, JPEG)
  {
    assert JPEG[0..3] == JPEG && [] + JPEG == JPEG;
  }

  lemma ReachReceived1(expected: Option<nat>)
    ensures Reachable(Receiving1(expected, JPEG))
  {
    ReachReceiving1(expected);
    Received1Step(expected);
    ReachWriteSome(Receiving1(expected, []), 1, 3);
  }

  lemma Streamed1Step(expected: Option<nat>)
    ensures CanCommitChunk(Receiving1(expected, JPEG), 1)
            && DoCommitChunk(Receiving1(expected, JPEG), 1, Acked) == Streamed1(expected)
  {
    assert [] + JPEG == JPEG;
  }

  lemma ReachStreamed1(expected: Option<nat>)
    ensures Reachable(Streamed1(expected))
  {
    ReachReceived1(expected);
    Streamed1Step(expected);
    ReachCommitChunk(Receiving1(expected, JPEG), 1, Acked);
  }

  lemma InterruptedStep(expected: Option<nat>)
    ensures var s := World(EarlyRow(Running, 5, Downloading, expected, Some("b"), 2).(bytesProcessed := 3),
                           Fact(Some(TEMP), 3),
                           Some(JPEG), map[1 := Runner("a", 1, Streaming, true, 0, JPEG, expected)]);
            CanStart(s, 2, 1, "b", 2) && DoStart(s, 2, 1, "b", 2) == Interrupted(expected)
  {
  }

  lemma ReachInterrupted(expected: Option<nat>)
    ensures Reachable(Interrupted(expected))
  {
    var fact := Fact(Some(TEMP), 3);
    var executors := map[1 := Runner("a", 1, Streaming, true, 0, JPEG, expected)];
    var row := EarlyRow(Running, 2, Downloading, expected, Some("a"), 1).(bytesProcessed := 3);
    var queued := EarlyRow(Queued, 4, Downloading, expected, None, 1).(bytesProcessed := 3);
    var leased := EarlyRow(Running, 5, Downloading, expected, Some("b"), 2).(bytesProcessed := 3);
    ReachStreamed1(expected);
    ReachRequeued(row, fact, Some(JPEG), executors);
    ReachStarted(queued, fact, Some(JPEG), executors, "b");
    InterruptedStep(expected);
    ReachStart(World(leased, fact, Some(JPEG), executors), 2, 1, "b", 2);
  }

  lemma OneName(data: map<int, Bytes>)
    ensures LinkCount(Files(map["t" := 7], map[], data), 7) == 1
  {
    assert NamesOf(map["t" := 7], 7) == {"t"};
    assert NamesOf(map[], 7) == {};
  }

  /** A second run can load what the pause has left. */
  lemma InterruptedIsLoadable(expected: Option<nat>)
    ensures var s := Interrupted(expected);
            && CanLoad(s, 2) && Genuine(s)
            && FactOf(s, 2) == Fact(Some(TEMP), 3) && RowOf(s, 2).stage == Downloading
            && LoadedDemand(s, 2) == Demand("image/jpeg", expected, None, LIMIT)
            && ResumeRefusal(s, TEMP, 3).None?
  {
    OneName(map[7 := JPEG]);
    WitnessIsGenuine(Interrupted(expected));
  }

  /**
   An ordinary pause is enough: a task whose plan knows the length and that is paused after its last chunk, still at
   stage `downloading`, is left with a complete file that no later run can publish.
   */
  lemma PausedCompleteFileIsStuck()
    ensures exists s, e ::
              && Reachable(s) && Genuine(s)
              && CanLoad(s, e) && FactOf(s, e).temp.Some? && RowOf(s, e).stage == Downloading
              && ResumeRefusal(s, FactOf(s, e).temp.value, FactOf(s, e).resumeOffset).None?
              && RowOf(s, e).expectedBytes == Some(FactOf(s, e).resumeOffset)
              && !CanPublish(DoLoad(s, e), e)
  {
    var s := Interrupted(Some(3));
    ReachInterrupted(Some(3));
    InterruptedIsLoadable(Some(3));
    CompleteFileIsNeverPublished(s, 2);
  }

  lemma LongerCompletes(s: State)
    requires s.sniff == Detection()
    ensures Completes(s, Demand("image/jpeg", None, None, LIMIT), JPEG, LONGER)
  {
    JpegsAreSniffed(s, LONGER);
  }

  lemma InterruptedIsPublishable()
    ensures var s := Interrupted(None);
            && HoldsLease(RowOf(s, 2), s.executors[2].owner, s.executors[2].generation, s.now)
            && Target(s, 2) !in s.files.media
            && s.files.data[7] == JPEG
  {
  }

  /** Where the plan does not know the length, the same file can still be completed. */
  lemma PausedFileCanBePublished()
    ensures exists s, e ::
              && Reachable(s) && Genuine(s)
              && CanLoad(s, e) && FactOf(s, e).temp.Some? && 0 < FactOf(s, e).resumeOffset
              && CanPublish(DoLoad(s, e), e)
  {
    var s := Interrupted(None);
    ReachInterrupted(None);
    InterruptedIsLoadable(None);
    InterruptedIsPublishable();
    LongerCompletes(s);
    RecordedFileCanBePublishedIff(s, 2);
  }

  lemma CanCheck1()
    ensures CanCommitVerified(Streamed1(None), 1, 30)
  {
    OneName(map[7 := JPEG]);
    var s := Streamed1(None);
    JpegsAreSniffed(s, JPEG);
    assert CanBeat(s, 1, 30) && InPhase(s, 1, Streaming);
  }

  lemma Checked1Step()
    requires CanCommitVerified(Streamed1(None), 1, 30)
    ensures DoCommitVerified(Streamed1(None), 1, 30, Acked) == Checked1()
  {
  }

  lemma ReachChecked1()
    ensures Reachable(Checked1())
  {
    ReachStreamed1(None);
    CanCheck1();
    Checked1Step();
    ReachCommitVerified(Streamed1(None), 1, 30, Acked);
  }

  ghost function Queued2(): State {
    World(Row(Queued, 4, Verified, None, 1), Fact(Some(TEMP), 3), Some(JPEG),
          map[1 := Runner("a", 1, Checked, true, 0, JPEG, None)])
  }

  lemma ReachQueued2()
    ensures Reachable(Queued2())
  {
    ReachChecked1();
    ReachRequeued(Row(Running, 2, Verified, Some("a"), 1), Fact(Some(TEMP), 3), Some(JPEG),
                  map[1 := Runner("a", 1, Checked, true, 0, JPEG, None)]);
  }

  lemma ReachLeased2()
    ensures Reachable(Leased2())
  {
    ReachQueued2();
    ReachStarted(Row(Queued, 4, Verified, None, 1), Fact(Some(TEMP), 3), Some(JPEG),
                 map[1 := Runner("a", 1, Checked, true, 0, JPEG, None)], "b");
  }

  ghost function Started2(): State {
    Leased2().(executors := Leased2().executors[2 := Executor(1, "b", 2, Begun, None, false, 0, [], None, "", false)])
  }

  lemma Started2Step()
    ensures CanStart(Leased2(), 2, 1, "b", 2) && DoStart(Leased2(), 2, 1, "b", 2) == Started2()
  {
  }

  lemma ReachStarted2()
    ensures Reachable(Started2())
  {
    ReachLeased2();
    Started2Step();
    ReachStart(Leased2(), 2, 1, "b", 2);
  }

  lemma Loaded2Step()
    ensures CanLoad(Started2(), 2) && DoLoad(Started2(), 2) == Loaded2()
  {
  }

  lemma ReachLoaded2()
    ensures Reachable(Loaded2())
  {
    ReachStarted2();
    Loaded2Step();
    ReachLoad(Started2(), 2);
  }

  lemma Opened2Step()
    ensures CanOpen(Loaded2(), 2, "u", 8) && DoOpen(Loaded2(), 2, "u", 8) == Opened2()
  {
    OneName(map[7 := JPEG]);
  }

  lemma ReachOpened2()
    ensures Reachable(Opened2())
  {
    ReachLoaded2();
    Opened2Step();
    ReachOpen(Loaded2(), 2, "u", 8);
  }

  lemma RaceStep()
    ensures CanCommitDownloading(Opened2(), 2, 30) && DoCommitDownloading(Opened2(), 2, 30, Acked) == Race()
  {
  }

  lemma ReachRace()
    ensures Reachable(Race())
  {
    ReachOpened2();
    RaceStep();
    ReachCommitDownloading(Opened2(), 2, 30, Acked);
  }

  lemma RaceLinks()
    ensures var s := Race();
            && Genuine(s) && CanLinkTarget(s, 1) && !Current(s, 1)
            && s.files.temp[s.executors[1].temp.value.name] == Inode(s, 1) == 7
  {
    WitnessIsGenuine(Race());
  }

  lemma RaceAppends()
    requires CanLinkTarget(Race(), 1)
    ensures MayAppend(DoLinkTarget(Race(), 1), 2, 7)
  {
  }

  /**
   A superseded run can link its file while the new holder of the lease still appends to it, and then the visible
   file changes: the content of a linked target is not final unless the linker still holds the lease.
   */
  lemma SupersededLinkIsNotFinal()
    ensures exists s, e, d ::
              && Reachable(s) && Genuine(s) && CanLinkTarget(s, e) && !Current(s, e)
              && s.files.temp[s.executors[e].temp.value.name] == Inode(s, e)
              && MayAppend(DoLinkTarget(s, e), d, Inode(s, e))
  {
    ReachRace();
    RaceLinks();
    RaceAppends();
  }

  ghost function Failing1(): State {
    World(Row(Running, 5, Downloading, Some("b"), 2), Fact(Some(TEMP), 3), Some(JPEG),
          map[1 := Runner("a", 1, Failing(PublishFailed), true, 0, JPEG, None),
              2 := Runner("b", 2, Streaming, false, 3, JPEG, Some(3))])
  }

  lemma Failing1Step()
    ensures CanRaise(Race(), 1) && DoRaise(Race(), 1, PublishFailed) == Failing1()
  {
  }

  lemma ReachFailing1()
    ensures Reachable(Failing1())
  {
    ReachRace();
    Failing1Step();
    ReachRaise(Race(), 1, PublishFailed);
  }

  lemma FailingBeside1()
    ensures var s := Failing1();
            && Genuine(s) && HeldBy(s, 2) && SupersededBeside(s, 1, 2) && FileNamed(s, 2) && !Visible(s, Inode(s, 2))
            && CanHandlerTransition(s, 1, 5)
  {
    WitnessIsGenuine(Failing1());
  }

  /**
   The handler is not fenced by owner and generation: a superseded run can fail the task of the run that holds the
   lease, and then remove the temporary file they share.
   */
  lemma SupersededHandlerStopsTheHolder()
    ensures exists s, e, d, version ::
              && Reachable(s) && Genuine(s)
              && HeldBy(s, d) && SupersededBeside(s, e, d) && FileNamed(s, d) && !Visible(s, Inode(s, d))
              && CanHandlerTransition(s, e, version)
              && HandlerTarget(s.executors[e].phase.code, s.executors[e].published) == Failed
              && !FileNamed(After(s, HandlerUnlink(e)), d)
  {
    ReachFailing1();
    var s := Failing1();
    FailingBeside1();
    SupersededHandlerUnlinksIff(s, 1, 2);
  }

  // ---------------------------------------------------------------- a run that succeeds

  ghost function Published(stage: Stage, temp: map<string, int>, fact: DownloadFact, phase: Phase,
                           sealed: set<int>): State {
    World(Row(Running, 2, stage, Some("a"), 1), fact, Some(JPEG),
          map[1 := Runner("a", 1, phase, true, 0, JPEG, None).(published := true)]).(
      files := Files(temp, map["a.jpg" := 7], map[7 := JPEG]), sealed := sealed)
  }

  ghost function WithLink(s: State): State {
    s.(links := map[1 := LinkRow(AssetKey(1, Some(1), "p", Sha256([1])), "a.jpg", "image/jpeg", 3, Sha256(JPEG))])
  }

  ghost function Linked1(): State {
    Published(Verified, map["t" := 7], Fact(Some(TEMP), 3), Linked, {})
  }

  ghost function Unlinked1(): State {
    Published(Verified, map[], Fact(Some(TEMP), 3), Unlinked, {})
  }

  ghost function Recorded1(): State {
    Published(Stage.Published, map[], Fact(None, 3), Recorded, {7})
  }

  ghost function RowLinked1(): State {
    WithLink(Published(DbLinked, map[], Fact(None, 3), RowLinked, {7}))
  }

  ghost function Indexed1(): State {
    WithLink(Published(IndexCoordinated, map[], Fact(None, 3), Indexed, {7}))
  }

  lemma LinkStep1()
    ensures CanLinkTarget(Checked1(), 1) && DoLinkTarget(Checked1(), 1) == Linked1()
  {
  }

  lemma ReachLinked1()
    ensures Reachable(Linked1())
  {
    ReachChecked1();
    LinkStep1();
    ReachLinkTarget(Checked1(), 1);
  }

  lemma UnlinkStep1()
    ensures CanUnlinkTemp(Linked1(), 1) && DoUnlinkTemp(Linked1(), 1) == Unlinked1()
  {
    assert map["t" := 7] - {"t"} == map[];
  }

  lemma ReachUnlinked1()
    ensures Reachable(Unlinked1())
  {
    ReachLinked1();
    UnlinkStep1();
    ReachUnlinkTemp(Linked1(), 1);
  }

  lemma CanPublish1()
    ensures CanCommitPublished(Unlinked1(), 1, 30)
  {
  }

  lemma PublishStep1()
    requires CanCommitPublished(Unlinked1(), 1, 30)
    ensures DoCommitPublished(Unlinked1(), 1, 30, Acked) == Recorded1()
  {
  }

  lemma ReachRecorded1()
    ensures Reachable(Recorded1())
  {
    ReachUnlinked1();
    CanPublish1();
    PublishStep1();
    ReachCommitPublished(Unlinked1(), 1, 30, Acked);
  }

  lemma CanDbLink1()
    ensures CanCommitDbLinked(Recorded1(), 1, 30)
  {
  }

  lemma DbLinkStep1()
    requires CanCommitDbLinked(Recorded1(), 1, 30)
    ensures DoCommitDbLinked(Recorded1(), 1, 30, Acked) == RowLinked1()
  {
  }

  lemma ReachRowLinked1()
    ensures Reachable(RowLinked1())
  {
    ReachRecorded1();
    CanDbLink1();
    DbLinkStep1();
    ReachCommitDbLinked(Recorded1(), 1, 30, Acked);
  }

  lemma CanIndex1()
    ensures CanCommitIndexed(RowLinked1(), 1, 30)
  {
  }

  lemma IndexStep1()
    requires CanCommitIndexed(RowLinked1(), 1, 30)
    ensures DoCommitIndexed(RowLinked1(), 1, 30, Acked) == Indexed1()
  {
  }

  lemma ReachIndexed1()
    ensures Reachable(Indexed1())
  {
    ReachRowLinked1();
    CanIndex1();
    IndexStep1();
    ReachCommitIndexed(RowLinked1(), 1, 30, Acked);
  }

  lemma SucceedStep1()
    ensures CanCommitSucceeded(Indexed1(), 1, 2)
    ensures var r := DoCommitSucceeded(Indexed1(), 1, 2, Acked);
            1 in r.tasks && r.tasks[1].state == Succeeded && 1 in r.links
  {
  }

  /** The protocol is not safe by doing nothing: a download can run to its end. */
  lemma ADownloadSucceeds()
    ensures exists s, t ::
              Reachable(s) && Genuine(s) && t in s.tasks && s.tasks[t].state == Succeeded && t in s.links
  {
    ReachIndexed1();
    SucceedStep1();
    var r := DoCommitSucceeded(Indexed1(), 1, 2, Acked);
    ReachCommitSucceeded(Indexed1(), 1, 2, Acked);
    WitnessIsGenuine(r);
    assert 1 in r.tasks;
  }
}
