/** What interrupted runs leave behind, and what later runs can still make of it. */
module ProtocolRecovery {
  import opened Basics
  import opened Tasks
  import opened Transfer
  import opened Protocol
  import opened ProtocolInvariant
  import opened ProtocolFrames
  import opened ProtocolShapes
  import opened ProtocolSteps
  import opened ProtocolTheorems
  import opened ProtocolLimits
  import opened ProtocolBars

  // ---------------------------------------------------------------- a run that publishes

  ghost predicate PublishedIn(s: State, e: int) {
    e in s.executors && s.executors[e].published
  }

  /** Some continuation lets the run publish its file. */
  ghost predicate CanPublish(s: State, e: int) {
    exists steps :: PublishedIn(Run(s, steps), e)
  }

  lemma PublishLater(s: State, step: Step, e: int)
    requires CanPublish(After(s, step), e)
    ensures CanPublish(s, e)
  {
    var steps :| PublishedIn(Run(After(s, step), steps), e);
    RunOne(s, step, steps);
    assert PublishedIn(Run(s, [step] + steps), e);
  }

  lemma PublishAfterCrash(s: State, f: int, e: int)
    requires CanCrash(s, f) && CanPublish(DoCrash(s, f), e)
    ensures CanPublish(s, e)
  {
    PublishLater(s, Crash(f), e);
  }

  lemma PublishAfterOpen(s: State, e: int, name: string, inode: int)
    requires CanOpen(s, e, name, inode) && CanPublish(DoOpen(s, e, name, inode), e)
    ensures CanPublish(s, e)
  {
    PublishLater(s, Open(e, name, inode), e);
  }

  lemma PublishAfterDownloading(s: State, e: int, ttl: nat)
    requires CanCommitDownloading(s, e, ttl) && CanPublish(DoCommitDownloading(s, e, ttl, Acked), e)
    ensures CanPublish(s, e)
  {
    PublishLater(s, CommitDownloading(e, ttl, Acked), e);
  }

  lemma PublishAfterReceive(s: State, e: int, ttl: nat, chunk: Bytes)
    requires CanReceive(s, e, ttl, chunk) && CanPublish(DoReceive(s, e, ttl, chunk), e)
    ensures CanPublish(s, e)
  {
    PublishLater(s, Receive(e, ttl, chunk), e);
  }

  lemma PublishAfterWrite(s: State, e: int, count: nat)
    requires CanWriteSome(s, e, count) && CanPublish(DoWriteSome(s, e, count), e)
    ensures CanPublish(s, e)
  {
    PublishLater(s, WriteSome(e, count), e);
  }

  lemma PublishAfterChunk(s: State, e: int)
    requires CanCommitChunk(s, e) && CanPublish(DoCommitChunk(s, e, Acked), e)
    ensures CanPublish(s, e)
  {
    PublishLater(s, CommitChunk(e, Acked), e);
  }

  lemma PublishAfterVerified(s: State, e: int, ttl: nat)
    requires CanCommitVerified(s, e, ttl) && CanPublish(DoCommitVerified(s, e, ttl, Acked), e)
    ensures CanPublish(s, e)
  {
    PublishLater(s, CommitVerified(e, ttl, Acked), e);
  }

  lemma PublishByLink(s: State, e: int)
    requires CanLinkTarget(s, e)
    ensures CanPublish(s, e)
  {
    var r := DoLinkTarget(s, e);
    assert PublishedIn(Run(r, []), e);
    PublishLater(s, LinkTarget(e), e);
  }

  /** The file is the recorded one, under its only name, the target is free, and c completes what the run began with. */
  ghost predicate OnCourse(s: State, e: int, c: Bytes) {
    && Alive(s, e)
    && var x := s.executors[e];
       && HasFile(s, e) && FactOf(s, e).temp == x.temp
       && x.temp.value.name in s.files.temp && s.files.temp[x.temp.value.name] == Inode(s, e)
       && LinkCount(s.files, Inode(s, e)) == 1
       && Target(s, e) !in s.files.media
       && x.offset < |c| && Acceptable(DemandOf(x, FactOf(s, e)), c, Sniffed(s, c))
  }

  ghost predicate UnderWay(s: State, e: int, c: Bytes) {
    && OnCourse(s, e, c) && s.fence.None?
    && HoldsLease(RowOf(s, e), s.executors[e].owner, s.executors[e].generation, s.now)
  }

  lemma DownloadingStaysUnderWay(s: State, e: int, c: Bytes)
    requires UnderWay(s, e, c) && s.executors[e].phase.Opened? && !s.executors[e].created
    ensures CanCommitDownloading(s, e, 5)
    ensures var r := DoCommitDownloading(s, e, 5, Acked);
            UnderWay(r, e, c) && r.executors[e] == s.executors[e].(phase := Streaming)
  {
  }

  /** The whole rest has been received, and its transaction is open. */
  ghost predicate InFlight(s: State, e: int, c: Bytes) {
    && OnCourse(s, e, c) && s.fence == Some(e)
    && var x := s.executors[e];
       && UnderLease(s, e) && !RowOf(s, e).cancelRequested
       && x.phase.Writing? && x.digested + x.phase.chunk == c && s.now < x.phase.until
  }

  lemma ReceiveIsInFlight(s: State, e: int, c: Bytes)
    requires UnderWay(s, e, c) && s.executors[e].phase.Streaming? && s.executors[e].digested < c
    ensures var rest := c[|s.executors[e].digested|..];
            && CanReceive(s, e, 5, rest)
            && var r := DoReceive(s, e, 5, rest);
               && InFlight(r, e, c)
               && r.executors[e].phase.chunk == rest && r.executors[e].phase.written == 0
  {
    var digested := s.executors[e].digested;
    assert digested + c[|digested|..] == c;
  }

  lemma WriteStaysInFlight(s: State, e: int, c: Bytes)
    requires InFlight(s, e, c) && s.executors[e].phase.chunk != [] && s.executors[e].phase.written == 0
    ensures var count := |s.executors[e].phase.chunk|;
            && CanWriteSome(s, e, count)
            && var r := DoWriteSome(s, e, count);
               InFlight(r, e, c) && r.executors[e].phase.written == |r.executors[e].phase.chunk|
  {
  }

  lemma ChunkIsUnderWay(s: State, e: int, c: Bytes)
    requires InFlight(s, e, c) && s.executors[e].phase.written == |s.executors[e].phase.chunk|
    ensures CanCommitChunk(s, e)
    ensures var r := DoCommitChunk(s, e, Acked);
            UnderWay(r, e, c) && r.executors[e].phase.Streaming? && r.executors[e].digested == c
  {
  }

  lemma VerifiedCanLink(s: State, e: int, c: Bytes)
    requires UnderWay(s, e, c) && s.executors[e].phase.Streaming? && s.executors[e].digested == c
    ensures CanCommitVerified(s, e, 5) && CanLinkTarget(DoCommitVerified(s, e, 5, Acked), e)
  {
  }

  lemma CompleteCanPublish(s: State, e: int, c: Bytes)
    requires UnderWay(s, e, c) && s.executors[e].phase.Streaming? && s.executors[e].digested == c
    ensures CanPublish(s, e)
  {
    VerifiedCanLink(s, e, c);
    PublishByLink(DoCommitVerified(s, e, 5, Acked), e);
    PublishAfterVerified(s, e, 5);
  }

  lemma InFlightCanPublish(s: State, e: int, c: Bytes)
    requires InFlight(s, e, c) && s.executors[e].phase.chunk != [] && s.executors[e].phase.written == 0
    ensures CanPublish(s, e)
  {
    WriteStaysInFlight(s, e, c);
    var count := |s.executors[e].phase.chunk|;
    var r := DoWriteSome(s, e, count);
    ChunkIsUnderWay(r, e, c);
    CompleteCanPublish(DoCommitChunk(r, e, Acked), e, c);
    PublishAfterChunk(r, e);
    PublishAfterWrite(s, e, count);
  }

  lemma StreamingCanPublish(s: State, e: int, c: Bytes)
    requires UnderWay(s, e, c) && s.executors[e].phase.Streaming? && s.executors[e].digested < c
    ensures CanPublish(s, e)
  {
    var rest := c[|s.executors[e].digested|..];
    ReceiveIsInFlight(s, e, c);
    InFlightCanPublish(DoReceive(s, e, 5, rest), e, c);
    PublishAfterReceive(s, e, 5, rest);
  }

  lemma OpenedCanPublish(s: State, e: int, c: Bytes)
    requires UnderWay(s, e, c) && s.executors[e].phase.Opened? && !s.executors[e].created && s.executors[e].digested < c
    ensures CanPublish(s, e)
  {
    DownloadingStaysUnderWay(s, e, c);
    StreamingCanPublish(DoCommitDownloading(s, e, 5, Acked), e, c);
    PublishAfterDownloading(s, e, 5);
  }

  // ---------------------------------------------------------------- from the recorded file to a publication

  /** The lease is held, the recorded file is in order, the target is free, and c completes the file. */
  ghost predicate Resumable(s: State, e: int, seen: DownloadFact, d: Demand, c: Bytes)
    requires Alive(s, e) && seen.temp.Some?
  {
    && ResumeRefusal(s, seen.temp.value, seen.resumeOffset).None?
    && HoldsLease(RowOf(s, e), s.executors[e].owner, s.executors[e].generation, s.now)
    && Target(s, e) !in s.files.media
    && Completes(s, d, s.files.data[seen.temp.value.inode], c)
  }

  ghost predicate Ready(s: State, e: int, c: Bytes) {
    && Alive(s, e) && s.executors[e].phase.Loaded?
    && var seen := s.executors[e].phase.seen;
       && seen == FactOf(s, e) && seen.temp.Some?
       && Resumable(s, e, seen, DemandOf(s.executors[e], seen), c)
  }

  lemma OpenIsUnderWay(s: State, e: int, name: string, inode: int, c: Bytes)
    requires Ready(s, e, c) && s.fence.None? && CanOpen(s, e, name, inode)
    ensures var r := DoOpen(s, e, name, inode);
            && UnderWay(r, e, c)
            && r.executors[e].phase.Opened? && !r.executors[e].created && r.executors[e].digested < c
  {
  }

  lemma {:induction false} UnusedInode(used: set<int>) returns (inode: int)
    ensures forall i :: i in used ==> i < inode
  {
    inode := 0;
    if i :| i in used {
      var above := UnusedInode(used - {i});
      inode := if i < above then above else i + 1;
      assert forall j :: j in used ==> j == i || j in used - {i};
    }
  }

  lemma {:induction false} UnusedName(used: set<string>) returns (name: string)
    ensures forall n :: n in used ==> |n| < |name|
  {
    name := "x";
    if n :| n in used {
      var longer := UnusedName(used - {n});
      name := if |n| < |longer| then longer else n + "x";
    }
  }

  lemma ReadyCanPublish(s: State, e: int, c: Bytes)
    requires Ready(s, e, c) && s.fence.None?
    ensures CanPublish(s, e)
  {
    var name := UnusedName(s.files.temp.Keys);
    var inode := UnusedInode(s.files.data.Keys);
    assert name !in s.files.temp && inode !in s.files.data;
    OpenIsUnderWay(s, e, name, inode, c);
    OpenedCanPublish(DoOpen(s, e, name, inode), e, c);
    PublishAfterOpen(s, e, name, inode);
  }

  lemma CrashLeavesReady(s: State, f: int, e: int, c: Bytes)
    requires Ready(s, e, c) && s.fence == Some(f) && f in s.executors && s.executors[f].phase.Writing?
    ensures CanCrash(s, f) && DoCrash(s, f).fence.None? && Ready(DoCrash(s, f), e, c)
  {
    CrashFrees(s, f, e);
  }

  lemma LoadIsReady(s: State, e: int, c: Bytes)
    requires CanLoad(s, e) && FactOf(s, e).temp.Some?
    requires Resumable(s, e, FactOf(s, e), LoadedDemand(s, e), c)
    ensures Ready(DoLoad(s, e), e, c) && DoLoad(s, e).fence == s.fence
  {
  }

  /** What a run that reads row and fact now will demand of the content. */
  function LoadedDemand(s: State, e: int): Demand
    requires Alive(s, e)
  {
    Demand(RowOf(s, e).mimeType, RowOf(s, e).expectedBytes, FactOf(s, e).expectedSha256, FactOf(s, e).maxBytes)
  }

  lemma ResumableCanPublish(s: State, e: int, c: Bytes)
    requires Inv(s) && CanLoad(s, e) && FactOf(s, e).temp.Some?
    requires Resumable(s, e, FactOf(s, e), LoadedDemand(s, e), c)
    ensures CanPublish(DoLoad(s, e), e)
  {
    var m := DoLoad(s, e);
    LoadIsReady(s, e, c);
    LoadKept(s, e);
    if m.fence.Some? {
      FencedIsWriting(m, m.fence.value);
      CrashLeavesReady(m, m.fence.value, e, c);
      ReadyCanPublish(DoCrash(m, m.fence.value), e, c);
      PublishAfterCrash(m, m.fence.value, e);
    } else {
      ReadyCanPublish(m, e, c);
    }
  }

  // ---------------------------------------------------------------- exactly when

  /** Which bar stands in the way of a run that is about to read its fact. */
  ghost function BarAtLoad(s: State, e: int): Bar
    requires Alive(s, e) && FactOf(s, e).temp.Some?
  {
    if ResumeRefusal(s, FactOf(s, e).temp.value, FactOf(s, e).resumeOffset).Some? then FileDamaged
    else if !HoldsLease(RowOf(s, e), s.executors[e].owner, s.executors[e].generation, s.now) then LeaseGone
    else if Target(s, e) in s.files.media then TargetTaken
    else Incompletable(s.files.data[FactOf(s, e).temp.value.inode])
  }

  lemma LoadIsBarred(s: State, e: int)
    requires Local(s, e) && Tidy(s) && CanLoad(s, e) && FactOf(s, e).temp.Some?
    requires forall c :: !Resumable(s, e, FactOf(s, e), LoadedDemand(s, e), c)
    ensures Barred(DoLoad(s, e), e, BarAtLoad(s, e))
  {
    var fact := FactOf(s, e);
    assert ResumeOk(s, s.executors[e].task);
    match BarAtLoad(s, e)
    case FileDamaged => DamagedAtLoad(s, e);
    case LeaseGone =>
    case TargetTaken =>
    case Incompletable(from) =>
      forall c
        ensures !Completes(s, LoadedDemand(s, e), from, c)
      {
        assert !Resumable(s, e, fact, LoadedDemand(s, e), c);
      }
      IncompletableAtLoad(s, e, from);
  }

  lemma DamagedAtLoad(s: State, e: int)
    requires CanLoad(s, e) && Tidy(s) && FactOf(s, e).temp.Some? && ResumeOk(s, s.executors[e].task)
    requires ResumeRefusal(s, FactOf(s, e).temp.value, FactOf(s, e).resumeOffset).Some?
    ensures Holds(DoLoad(s, e), e, FileDamaged)
  {
    RefusedIsDamaged(s, FactOf(s, e).temp.value, FactOf(s, e).resumeOffset);
    SameFilesDamaged(s, DoLoad(s, e), FactOf(s, e).temp.value, FactOf(s, e).resumeOffset);
  }

  lemma SameFilesDamaged(s: State, r: State, seen: TempRef, offset: nat)
    requires Damaged(s, seen, offset) && r.files == s.files
    ensures Damaged(r, seen, offset)
  {
  }

  lemma IncompletableAtLoad(s: State, e: int, from: Bytes)
    requires CanLoad(s, e) && FactOf(s, e).temp.Some?
    requires ResumeRefusal(s, FactOf(s, e).temp.value, FactOf(s, e).resumeOffset).None?
    requires from == s.files.data[FactOf(s, e).temp.value.inode]
    requires forall c :: !Completes(s, LoadedDemand(s, e), from, c)
    ensures Holds(DoLoad(s, e), e, Incompletable(from))
  {
    var r := DoLoad(s, e);
    forall c
      ensures !Completes(r, DemandOf(r.executors[e], FactOf(r, e)), from, c)
    {
      assert !Completes(s, LoadedDemand(s, e), from, c);
    }
  }

  lemma UnresumableCannotPublish(s: State, e: int)
    requires Inv(s) && Tidy(s) && CanLoad(s, e) && FactOf(s, e).temp.Some?
    requires forall c :: !Resumable(s, e, FactOf(s, e), LoadedDemand(s, e), c)
    ensures !CanPublish(DoLoad(s, e), e)
  {
    var m := DoLoad(s, e);
    LocalOf(s, e);
    LoadIsBarred(s, e);
    LoadKept(s, e);
    forall steps
      ensures !PublishedIn(Run(m, steps), e)
    {
      BarredForever(m, steps, e, BarAtLoad(s, e));
    }
  }

  /**
   When can an interrupted download be resumed and published? A run that is about to read a recorded file can publish
   exactly when the file is the recorded inode, has that one name and the recorded length, the run holds the lease, the
   target is free, and some longer content that begins with the file meets the demands of row and plan.
   */
  lemma RecordedFileCanBePublishedIff(s: State, e: int)
    requires Reachable(s) && CanLoad(s, e) && FactOf(s, e).temp.Some?
    ensures CanPublish(DoLoad(s, e), e)
            <==> && ResumeRefusal(s, FactOf(s, e).temp.value, FactOf(s, e).resumeOffset).None?
                 && HoldsLease(RowOf(s, e), s.executors[e].owner, s.executors[e].generation, s.now)
                 && Target(s, e) !in s.files.media
                 && exists c :: Completes(s, LoadedDemand(s, e), s.files.data[FactOf(s, e).temp.value.inode], c)
  {
    ReachableInv(s);
    ReachableTidy(s);
    if c :| Resumable(s, e, FactOf(s, e), LoadedDemand(s, e), c) {
      ResumableCanPublish(s, e, c);
    } else {
      UnresumableCannotPublish(s, e);
      NothingResumable(s, e);
    }
  }

  lemma NothingResumable(s: State, e: int)
    requires Alive(s, e) && FactOf(s, e).temp.Some?
    requires forall c :: !Resumable(s, e, FactOf(s, e), LoadedDemand(s, e), c)
    ensures || ResumeRefusal(s, FactOf(s, e).temp.value, FactOf(s, e).resumeOffset).Some?
            || !HoldsLease(RowOf(s, e), s.executors[e].owner, s.executors[e].generation, s.now)
            || Target(s, e) in s.files.media
            || forall c :: !Completes(s, LoadedDemand(s, e), s.files.data[FactOf(s, e).temp.value.inode], c)
  {
    forall c | ResumeRefusal(s, FactOf(s, e).temp.value, FactOf(s, e).resumeOffset).None?
               && Completes(s, LoadedDemand(s, e), s.files.data[FactOf(s, e).temp.value.inode], c)
      ensures !HoldsLease(RowOf(s, e), s.executors[e].owner, s.executors[e].generation, s.now)
              || Target(s, e) in s.files.media
    {
      assert !Resumable(s, e, FactOf(s, e), LoadedDemand(s, e), c);
    }
  }

  /** So a file that is as long as its row demands can never be published: the run must add bytes to it and must not. */
  lemma CompleteFileIsNeverPublished(s: State, e: int)
    requires Reachable(s) && CanLoad(s, e) && FactOf(s, e).temp.Some?
    requires RowOf(s, e).expectedBytes.Some? && RowOf(s, e).expectedBytes.value <= FactOf(s, e).resumeOffset
    ensures !CanPublish(DoLoad(s, e), e)
  {
    RecordedFileCanBePublishedIff(s, e);
    forall c | ResumeRefusal(s, FactOf(s, e).temp.value, FactOf(s, e).resumeOffset).None?
      ensures !Completes(s, LoadedDemand(s, e), s.files.data[FactOf(s, e).temp.value.inode], c)
    {
    }
  }

  /** In particular a file whose task was interrupted after `verified`. */
  lemma VerifiedTempIsNeverPublished(s: State, e: int)
    requires Reachable(s) && CanLoad(s, e) && RowOf(s, e).stage == Verified && FactOf(s, e).temp.Some?
    ensures !CanPublish(DoLoad(s, e), e)
  {
    ReachableInv(s);
    assert TaskOk(s, s.executors[e].task);
    RecordedFileCanBePublishedIff(s, e);
    if ResumeRefusal(s, FactOf(s, e).temp.value, FactOf(s, e).resumeOffset).None? {
      CompleteFileIsNeverPublished(s, e);
    }
  }

  // ---------------------------------------------------------------- a crash before `published`

  /**
   A process that dies after creating the target name and before `published` leaves a row that a restart only pauses,
   although the file is visible already; and no later run of the task publishes the file that the fact still names.
   */
  lemma CrashBeforePublishedIsNotReviewed(s: State, e: int, steps: seq<Step>, d: int)
    requires Reachable(s) && Current(s, e) && (s.executors[e].phase.Linked? || s.executors[e].phase.Unlinked?)
    requires HasFile(s, e) && Visible(s, Inode(s, e))
    requires var r := Run(s, steps);
             && CanLoad(r, d) && r.executors[d].task == s.executors[e].task && FactOf(r, d).temp == s.executors[e].temp
    ensures RowOf(s, e).state == Running || RowOf(s, e).state == Cancelling ==> RecoveryTarget(RowOf(s, e)) == Paused
    ensures !CanPublish(DoLoad(Run(s, steps), d), d)
  {
    var r := Run(s, steps);
    ReachableInv(s);
    LinkingStage(s, e);
    RunKeeps(s, steps);
    VisibleStays(s, r, Inode(s, e));
    VisibleIsNotResumed(r, FactOf(r, d).temp.value, FactOf(r, d).resumeOffset);
    ReachableRun(s, steps);
    RecordedFileCanBePublishedIff(r, d);
  }

  lemma LinkingStage(s: State, e: int)
    requires Inv(s) && Current(s, e) && (s.executors[e].phase.Linked? || s.executors[e].phase.Unlinked?)
    ensures RowOf(s, e).state == Running || RowOf(s, e).state == Cancelling ==> RecoveryTarget(RowOf(s, e)) == Paused
  {
    assert ExecutorOk(s, e) && HolderOk(s, e) && TaskOk(s, s.executors[e].task);
  }
}
