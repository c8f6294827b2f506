/** Every step keeps the invariant, hence every run does. */
module ProtocolSteps {
  import opened Basics
  import opened Tasks
  import opened Transfer
  import opened Protocol
  import opened ProtocolInvariant
  import opened ProtocolFrames
  import opened ProtocolShapes

  // ---------------------------------------------------------------- the environment

  lemma TickKept(s: State, to: int)
    requires Inv(s) && CanTick(s, to)
    ensures Kept(s, DoTick(s, to), Tick(to))
  {
    TickIsEnvironmental(s, to);
    TickLeavesRecords(s, to);
    EnvironmentKeeps(s, DoTick(s, to));
  }

  lemma TickIsEnvironmental(s: State, to: int)
    requires Structure(s) && CanTick(s, to)
    ensures Environmental(s, DoTick(s, to))
  {
  }

  lemma TickLeavesRecords(s: State, to: int)
    requires Structure(s) && CanTick(s, to)
    ensures SameData(s, DoTick(s, to)) && SameRecords(s, DoTick(s, to)) && NamesFollow(s, DoTick(s, to))
    ensures OutsideFrame(s, DoTick(s, to), Tick(to))
  {
  }

  lemma NewTaskIsEnvironmental(s: State, t: int, row: TaskRow, fact: DownloadFact)
    requires Structure(s) && CanNewTask(s, t, row, fact)
    ensures Environmental(s, DoNewTask(s, t, row, fact))
  {
  }

  lemma NewTaskLeavesRecords(s: State, t: int, row: TaskRow, fact: DownloadFact)
    requires Structure(s) && CanNewTask(s, t, row, fact)
    ensures SameData(s, DoNewTask(s, t, row, fact)) && SameRecords(s, DoNewTask(s, t, row, fact))
            && NamesFollow(s, DoNewTask(s, t, row, fact))
    ensures OutsideFrame(s, DoNewTask(s, t, row, fact), NewTask(t, row, fact))
  {
  }

  lemma NewTaskIsInOrder(s: State, t: int, row: TaskRow, fact: DownloadFact)
    requires Structure(s) && CanNewTask(s, t, row, fact) && Structure(DoNewTask(s, t, row, fact))
    ensures TaskOk(DoNewTask(s, t, row, fact), t)
  {
  }

  lemma NewTaskKept(s: State, t: int, row: TaskRow, fact: DownloadFact)
    requires Inv(s) && CanNewTask(s, t, row, fact)
    ensures Kept(s, DoNewTask(s, t, row, fact), NewTask(t, row, fact))
  {
    NewTaskIsEnvironmental(s, t, row, fact);
    NewTaskLeavesRecords(s, t, row, fact);
    NewTaskIsInOrder(s, t, row, fact);
    EnvironmentKeeps(s, DoNewTask(s, t, row, fact));
  }

  lemma RowStepIsEnvironmental(s: State, t: int, op: RowOp)
    requires Structure(s) && CanRowStep(s, t, op) && Sound(s.tasks[t])
    ensures Environmental(s, DoRowStep(s, t, op))
  {
    RowOpKeeps(s.tasks[t], op, s.now);
  }

  lemma RowStepLeavesRecords(s: State, t: int, op: RowOp)
    requires Structure(s) && CanRowStep(s, t, op) && Sound(s.tasks[t])
    ensures SameData(s, DoRowStep(s, t, op)) && SameRecords(s, DoRowStep(s, t, op))
            && NamesFollow(s, DoRowStep(s, t, op))
    ensures OutsideFrame(s, DoRowStep(s, t, op), RowStep(t, op))
  {
    RowOpKeeps(s.tasks[t], op, s.now);
  }

  lemma RowStepTask(s: State, t: int, op: RowOp)
    requires Structure(s) && CanRowStep(s, t, op) && TaskOk(s, t)
    ensures Structure(DoRowStep(s, t, op)) && TaskOk(DoRowStep(s, t, op), t)
  {
    RowOpKeeps(s.tasks[t], op, s.now);
  }

  lemma RowStepKept(s: State, t: int, op: RowOp)
    requires Inv(s) && CanRowStep(s, t, op)
    ensures Kept(s, DoRowStep(s, t, op), RowStep(t, op))
  {
    assert TaskOk(s, t);
    RowStepIsEnvironmental(s, t, op);
    RowStepLeavesRecords(s, t, op);
    RowStepTask(s, t, op);
    EnvironmentKeeps(s, DoRowStep(s, t, op));
  }

  lemma ForeignFileIsEnvironmental(s: State, name: string, inode: int, content: Bytes)
    requires Structure(s) && CanForeignFile(s, name, inode)
    ensures var r := DoForeignFile(s, name, inode, content); Environmental(s, r)
  {
  }

  lemma ForeignFileLeavesRecords(s: State, name: string, inode: int, content: Bytes)
    requires Structure(s) && CanForeignFile(s, name, inode)
    ensures var r := DoForeignFile(s, name, inode, content);
            SameData(s, r) && SameRecords(s, r) && NamesFollow(s, r)
                && OutsideFrame(s, r, ForeignFile(name, inode, content))
  {
  }

  lemma ForeignFileKept(s: State, name: string, inode: int, content: Bytes)
    requires Inv(s) && CanForeignFile(s, name, inode)
    ensures Kept(s, DoForeignFile(s, name, inode, content), ForeignFile(name, inode, content))
  {
    ForeignFileIsEnvironmental(s, name, inode, content);
    ForeignFileLeavesRecords(s, name, inode, content);
    EnvironmentKeeps(s, DoForeignFile(s, name, inode, content));
  }

  lemma SweepIsEnvironmental(s: State, name: string)
    requires Structure(s) && CanSweep(s, name)
    ensures Environmental(s, DoSweep(s, name))
  {
  }

  lemma SweepLeavesRecords(s: State, name: string)
    requires Structure(s) && CanSweep(s, name)
    ensures SameData(s, DoSweep(s, name)) && SameRecords(s, DoSweep(s, name)) && NamesFollow(s, DoSweep(s, name))
    ensures OutsideFrame(s, DoSweep(s, name), Sweep(name))
  {
  }

  lemma SweepKept(s: State, name: string)
    requires Inv(s) && CanSweep(s, name)
    ensures Kept(s, DoSweep(s, name), Sweep(name))
  {
    SweepIsEnvironmental(s, name);
    SweepLeavesRecords(s, name);
    EnvironmentKeeps(s, DoSweep(s, name));
  }

  lemma StartExecutor(s: State, e: int, t: int, owner: string, generation: nat, d: int)
    requires Structure(s) && CanStart(s, e, t, owner, generation)
    requires d == e || Local(s, d)
    ensures var r := DoStart(s, e, t, owner, generation); ExecutorOk(r, d) && (Current(r, d) ==> HolderOk(r, d))
  {
  }

  lemma StartTask(s: State, e: int, t: int, owner: string, generation: nat, u: int)
    requires Structure(s) && CanStart(s, e, t, owner, generation) && u in s.tasks && TaskOk(s, u)
    ensures Structure(DoStart(s, e, t, owner, generation)) && TaskOk(DoStart(s, e, t, owner, generation), u)
  {
  }

  lemma StartPermanent(s: State, e: int, t: int, owner: string, generation: nat)
    requires Structure(s) && CanStart(s, e, t, owner, generation)
    ensures var r := DoStart(s, e, t, owner, generation);
            Structure(r) && Permanent(s, r) && SameData(s, r) && SameRecords(s, r) && NamesFollow(s, r)
            && OutsideFrame(s, r, Start(e, t, owner, generation))
  {
  }

  lemma StartKeepsPairs(s: State, e: int, t: int, owner: string, generation: nat)
    requires OwnersDistinct(s) && LinkersDistinct(s) && CanStart(s, e, t, owner, generation)
    ensures var r := DoStart(s, e, t, owner, generation); OwnersDistinct(r) && LinkersDistinct(r)
  {
  }

  lemma StartKept(s: State, e: int, t: int, owner: string, generation: nat)
    requires Inv(s) && CanStart(s, e, t, owner, generation)
    ensures Kept(s, DoStart(s, e, t, owner, generation), Start(e, t, owner, generation))
  {
    var r := DoStart(s, e, t, owner, generation);
    StartPermanent(s, e, t, owner, generation);
    StartKeepsPairs(s, e, t, owner, generation);
    forall d | d in r.executors
      ensures ExecutorOk(r, d) && (Current(r, d) ==> HolderOk(r, d))
    {
      if d != e {
        LocalOf(s, d);
      }
      StartExecutor(s, e, t, owner, generation, d);
    }
    forall u | u in r.tasks
      ensures TaskOk(r, u)
    {
      StartTask(s, e, t, owner, generation, u);
    }
  }

  // ---------------------------------------------------------------- the executor alone

  /** A run that has read its row can fail; any run can end. */
  predicate LeavesRun(from: Phase, to: Phase) {
    to.Ended? || ((to.Failing? || to.Settling? || to.Clearing?) && !from.Begun? && !from.Ended?)
  }

  lemma MovedExecutor(s: State, e: int, p: Phase)
    requires Local(s, e) && s.fence != Some(e) && LeavesRun(s.executors[e].phase, p)
    ensures var r := OnlyMoved(s, e, s.executors[e].(phase := p));
            ExecutorOk(r, e) && (Current(r, e) ==> HolderOk(r, e))
  {
  }

  /** The run fails, or ends. */
  lemma MovedKept(s: State, e: int, p: Phase, step: Step)
    requires Inv(s) && e in s.executors && s.fence != Some(e) && LeavesRun(s.executors[e].phase, p)
    requires HasMover(step) && step.e == e && PhaseMoves(step, s.executors[e].phase, p)
    ensures Kept(s, Moved(s, e, p), step)
  {
    LocalOf(s, e);
    MovedExecutor(s, e, p);
    OnlyMovedIsKept(s, e, s.executors[e].(phase := p), step);
  }

  lemma LoadExecutor(s: State, e: int)
    requires Local(s, e) && CanLoad(s, e)
    ensures ExecutorOk(DoLoad(s, e), e) && (Current(DoLoad(s, e), e) ==> HolderOk(DoLoad(s, e), e))
  {
  }

  lemma LoadKept(s: State, e: int)
    requires Inv(s) && CanLoad(s, e)
    ensures Kept(s, DoLoad(s, e), Load(e))
  {
    LocalOf(s, e);
    LoadExecutor(s, e);
    OnlyMovedIsKept(s, e, DoLoad(s, e).executors[e], Load(e));
  }

  lemma ResumedExecutor(s: State, e: int, seen: TempRef)
    requires Local(s, e) && s.executors[e].phase.Loaded? && s.executors[e].phase.seen.temp == Some(seen)
    requires ResumeRefusal(s, seen, s.executors[e].phase.seen.resumeOffset).None?
    ensures var r := Resumed(s, e, seen); ExecutorOk(r, e) && (Current(r, e) ==> HolderOk(r, e))
  {
  }

  lemma ResumedKept(s: State, e: int, seen: TempRef, step: Step)
    requires Inv(s) && e in s.executors && s.executors[e].phase.Loaded? && s.executors[e].phase.seen.temp == Some(seen)
    requires ResumeRefusal(s, seen, s.executors[e].phase.seen.resumeOffset).None? && step.Open? && step.e == e
    ensures Kept(s, Resumed(s, e, seen), step)
  {
    LocalOf(s, e);
    ResumedExecutor(s, e, seen);
    OnlyMovedIsKept(s, e, Resumed(s, e, seen).executors[e], step);
  }

  lemma CreatedFrame(s: State, e: int, name: string, inode: int)
    requires Structure(s) && CanOpen(s, e, name, inode)
    ensures OnlyTouches(s, Created(s, e, name, inode), e)
  {
  }

  lemma CreatedPermanent(s: State, e: int, name: string, inode: int)
    requires Structure(s) && CanOpen(s, e, name, inode)
    ensures Structure(Created(s, e, name, inode)) && PermanentRows(s, Created(s, e, name, inode))
    ensures SameData(s, Created(s, e, name, inode)) && SameRecords(s, Created(s, e, name, inode))
    ensures NamesFollow(s, Created(s, e, name, inode))
    ensures PermanentFiles(s, Created(s, e, name, inode)) && PermanentRuns(s, Created(s, e, name, inode))
  {
  }

  lemma CreatedExecutor(s: State, e: int, name: string, inode: int)
    requires Local(s, e) && CanOpen(s, e, name, inode) && s.executors[e].phase.seen.temp.None?
    requires Structure(Created(s, e, name, inode))
    ensures var r := Created(s, e, name, inode); ExecutorOk(r, e) && (Current(r, e) ==> HolderOk(r, e))
  {
  }

  lemma CreatedTask(s: State, e: int, name: string, inode: int)
    requires Local(s, e) && CanOpen(s, e, name, inode) && s.executors[e].phase.seen.temp.None?
    requires Structure(Created(s, e, name, inode))
    ensures TaskOk(Created(s, e, name, inode), s.executors[e].task)
  {
  }

  lemma CreatedKept(s: State, e: int, name: string, inode: int)
    requires Inv(s) && CanOpen(s, e, name, inode) && s.executors[e].phase.seen.temp.None?
    ensures Kept(s, Created(s, e, name, inode), Open(e, name, inode))
  {
    LocalOf(s, e);
    CreatedFrame(s, e, name, inode);
    CreatedPermanent(s, e, name, inode);
    CreatedExecutor(s, e, name, inode);
    CreatedTask(s, e, name, inode);
    GoodStepIsKept(s, Created(s, e, name, inode), Open(e, name, inode));
  }

  lemma OpenKept(s: State, e: int, name: string, inode: int)
    requires Inv(s) && CanOpen(s, e, name, inode)
    ensures Kept(s, DoOpen(s, e, name, inode), Open(e, name, inode))
  {
    LocalOf(s, e);
    var seen := s.executors[e].phase.seen;
    if seen.temp.None? {
      CreatedKept(s, e, name, inode);
    } else {
      var refusal := ResumeRefusal(s, seen.temp.value, seen.resumeOffset);
      if refusal.Some? {
        MovedKept(s, e, Failing(refusal.value), Open(e, name, inode));
      } else {
        ResumedKept(s, e, seen.temp.value, Open(e, name, inode));
      }
    }
  }

  // ---------------------------------------------------------------- commits

  /** Where a commit leaves the executor, once it has taken effect. */
  predicate AfterCommit(p: Phase, target: Phase) {
    p == target || p == Failing(ProviderError)
  }

  ghost function CommitDownloadingRewrite(s: State, e: int, ttl: nat, p: Phase): Rewrite
    requires CanCommitDownloading(s, e, ttl)
  {
    Rewrite(Beaten(s, e, ttl, |s.executors[e].digested|, Downloading),
            if s.executors[e].created then FactOf(s, e).(temp := s.executors[e].temp, resumeOffset := 0)
            else FactOf(s, e),
            s.links, s.sealed, s.executors[e].(phase := p))
  }

  lemma CommitDownloadingIsFair(s: State, e: int, ttl: nat, p: Phase)
    requires Local(s, e) && CanCommitDownloading(s, e, ttl) && AfterCommit(p, Streaming)
    ensures Fair(s, e, CommitDownloadingRewrite(s, e, ttl, p))
  {
  }

  lemma CommitDownloadingExecutor(s: State, e: int, ttl: nat, p: Phase)
    requires Local(s, e) && CanCommitDownloading(s, e, ttl) && AfterCommit(p, Streaming)
    ensures ExecutorOk(Rewritten(s, e, CommitDownloadingRewrite(s, e, ttl, p)), e)
  {
  }

  lemma CommitDownloadingHolder(s: State, e: int, ttl: nat, p: Phase)
    requires Local(s, e) && CanCommitDownloading(s, e, ttl) && AfterCommit(p, Streaming)
    requires ExecutorOk(Rewritten(s, e, CommitDownloadingRewrite(s, e, ttl, p)), e)
    ensures Current(Rewritten(s, e, CommitDownloadingRewrite(s, e, ttl, p)), e) ==>
            HolderOk(Rewritten(s, e, CommitDownloadingRewrite(s, e, ttl, p)), e)
  {
  }

  lemma CommitDownloadingTask(s: State, e: int, ttl: nat, p: Phase)
    requires Local(s, e) && CanCommitDownloading(s, e, ttl) && AfterCommit(p, Streaming)
    requires Structure(Rewritten(s, e, CommitDownloadingRewrite(s, e, ttl, p)))
    ensures TaskOk(Rewritten(s, e, CommitDownloadingRewrite(s, e, ttl, p)), s.executors[e].task)
  {
  }

  lemma CommitDownloadingEffect(s: State, e: int, ttl: nat, p: Phase, ending: Ending)
    requires Inv(s) && CanCommitDownloading(s, e, ttl) && AfterCommit(p, Streaming)
    ensures Kept(s, Rewritten(s, e, CommitDownloadingRewrite(s, e, ttl, p)), CommitDownloading(e, ttl, ending))
  {
    LocalOf(s, e);
    CommitDownloadingIsFair(s, e, ttl, p);
    RewrittenStructure(s, e, CommitDownloadingRewrite(s, e, ttl, p));
    CommitDownloadingExecutor(s, e, ttl, p);
    CommitDownloadingHolder(s, e, ttl, p);
    CommitDownloadingTask(s, e, ttl, p);
    RewrittenIsKept(s, e, CommitDownloadingRewrite(s, e, ttl, p), CommitDownloading(e, ttl, ending));
  }

  lemma CommitDownloadingKept(s: State, e: int, ttl: nat, ending: Ending)
    requires Inv(s) && CanCommitDownloading(s, e, ttl)
    ensures Kept(s, DoCommitDownloading(s, e, ttl, ending), CommitDownloading(e, ttl, ending))
  {
    match ending
    case Acked => CommitDownloadingEffect(s, e, ttl, Streaming, ending);
    case RaisedBefore => MovedKept(s, e, Failing(ProviderError), CommitDownloading(e, ttl, ending));
    case RaisedAfter => CommitDownloadingEffect(s, e, ttl, Failing(ProviderError), ending);
  }

  ghost function VerifiedRow(s: State, e: int, ttl: nat): TaskRow
    requires Alive(s, e)
  {
    var x := s.executors[e];
    Beaten(s, e, ttl, |x.digested|, Verified).(
      sha256 := Some(Sha256(x.digested)), expectedBytes := Some(|x.digested|), mimeType := x.mimeType)
  }

  ghost function CommitVerifiedRewrite(s: State, e: int, ttl: nat, p: Phase): Rewrite
    requires CanCommitVerified(s, e, ttl)
  {
    Rewrite(VerifiedRow(s, e, ttl), FactOf(s, e).(resumeOffset := |s.executors[e].digested|), s.links, s.sealed,
            s.executors[e].(phase := p))
  }

  lemma CommitVerifiedIsFair(s: State, e: int, ttl: nat, p: Phase)
    requires Local(s, e) && CanCommitVerified(s, e, ttl) && AfterCommit(p, Checked)
    ensures Fair(s, e, CommitVerifiedRewrite(s, e, ttl, p))
  {
  }

  lemma CommitVerifiedExecutor(s: State, e: int, ttl: nat, p: Phase)
    requires Local(s, e) && CanCommitVerified(s, e, ttl) && AfterCommit(p, Checked)
    ensures ExecutorOk(Rewritten(s, e, CommitVerifiedRewrite(s, e, ttl, p)), e)
  {
  }

  lemma CommitVerifiedHolder(s: State, e: int, ttl: nat, p: Phase)
    requires Local(s, e) && CanCommitVerified(s, e, ttl) && AfterCommit(p, Checked)
    requires ExecutorOk(Rewritten(s, e, CommitVerifiedRewrite(s, e, ttl, p)), e)
    ensures Current(Rewritten(s, e, CommitVerifiedRewrite(s, e, ttl, p)), e) ==>
            HolderOk(Rewritten(s, e, CommitVerifiedRewrite(s, e, ttl, p)), e)
  {
  }

  lemma CommitVerifiedTask(s: State, e: int, ttl: nat, p: Phase)
    requires Local(s, e) && CanCommitVerified(s, e, ttl) && AfterCommit(p, Checked)
    requires Structure(Rewritten(s, e, CommitVerifiedRewrite(s, e, ttl, p)))
    ensures TaskOk(Rewritten(s, e, CommitVerifiedRewrite(s, e, ttl, p)), s.executors[e].task)
  {
  }

  lemma CommitVerifiedEffect(s: State, e: int, ttl: nat, p: Phase, ending: Ending)
    requires Inv(s) && CanCommitVerified(s, e, ttl) && AfterCommit(p, Checked)
    ensures Kept(s, Rewritten(s, e, CommitVerifiedRewrite(s, e, ttl, p)), CommitVerified(e, ttl, ending))
  {
    LocalOf(s, e);
    CommitVerifiedIsFair(s, e, ttl, p);
    RewrittenStructure(s, e, CommitVerifiedRewrite(s, e, ttl, p));
    CommitVerifiedExecutor(s, e, ttl, p);
    CommitVerifiedHolder(s, e, ttl, p);
    CommitVerifiedTask(s, e, ttl, p);
    RewrittenIsKept(s, e, CommitVerifiedRewrite(s, e, ttl, p), CommitVerified(e, ttl, ending));
  }

  lemma CommitVerifiedKept(s: State, e: int, ttl: nat, ending: Ending)
    requires Inv(s) && CanCommitVerified(s, e, ttl)
    ensures Kept(s, DoCommitVerified(s, e, ttl, ending), CommitVerified(e, ttl, ending))
  {
    match ending
    case Acked => CommitVerifiedEffect(s, e, ttl, Checked, ending);
    case RaisedBefore => MovedKept(s, e, Failing(ProviderError), CommitVerified(e, ttl, ending));
    case RaisedAfter => CommitVerifiedEffect(s, e, ttl, Failing(ProviderError), ending);
  }

  ghost function CommitPublishedRewrite(s: State, e: int, ttl: nat, p: Phase): Rewrite
    requires CanCommitPublished(s, e, ttl)
  {
    Rewrite(Beaten(s, e, ttl, |s.executors[e].digested|, Published),
            FactOf(s, e).(temp := None, resumeOffset := |s.executors[e].digested|), s.links, s.sealed + {Inode(s, e)},
            s.executors[e].(phase := p))
  }

  lemma CommitPublishedIsFair(s: State, e: int, ttl: nat, p: Phase)
    requires Local(s, e) && CanCommitPublished(s, e, ttl) && AfterCommit(p, Recorded)
    ensures Fair(s, e, CommitPublishedRewrite(s, e, ttl, p))
  {
  }

  lemma CommitPublishedExecutor(s: State, e: int, ttl: nat, p: Phase)
    requires Local(s, e) && CanCommitPublished(s, e, ttl) && AfterCommit(p, Recorded)
    ensures ExecutorOk(Rewritten(s, e, CommitPublishedRewrite(s, e, ttl, p)), e)
  {
  }

  lemma CommitPublishedHolder(s: State, e: int, ttl: nat, p: Phase)
    requires Local(s, e) && CanCommitPublished(s, e, ttl) && AfterCommit(p, Recorded)
    requires ExecutorOk(Rewritten(s, e, CommitPublishedRewrite(s, e, ttl, p)), e)
    ensures Current(Rewritten(s, e, CommitPublishedRewrite(s, e, ttl, p)), e) ==>
            HolderOk(Rewritten(s, e, CommitPublishedRewrite(s, e, ttl, p)), e)
  {
  }

  lemma CommitPublishedTask(s: State, e: int, ttl: nat, p: Phase)
    requires Local(s, e) && CanCommitPublished(s, e, ttl) && AfterCommit(p, Recorded)
    requires Structure(Rewritten(s, e, CommitPublishedRewrite(s, e, ttl, p)))
    ensures TaskOk(Rewritten(s, e, CommitPublishedRewrite(s, e, ttl, p)), s.executors[e].task)
  {
  }

  lemma CommitPublishedEffect(s: State, e: int, ttl: nat, p: Phase, ending: Ending)
    requires Inv(s) && CanCommitPublished(s, e, ttl) && AfterCommit(p, Recorded)
    ensures Kept(s, Rewritten(s, e, CommitPublishedRewrite(s, e, ttl, p)), CommitPublished(e, ttl, ending))
  {
    LocalOf(s, e);
    CommitPublishedIsFair(s, e, ttl, p);
    RewrittenStructure(s, e, CommitPublishedRewrite(s, e, ttl, p));
    CommitPublishedExecutor(s, e, ttl, p);
    CommitPublishedHolder(s, e, ttl, p);
    CommitPublishedTask(s, e, ttl, p);
    RewrittenIsKept(s, e, CommitPublishedRewrite(s, e, ttl, p), CommitPublished(e, ttl, ending));
  }

  lemma CommitPublishedKept(s: State, e: int, ttl: nat, ending: Ending)
    requires Inv(s) && CanCommitPublished(s, e, ttl)
    ensures Kept(s, DoCommitPublished(s, e, ttl, ending), CommitPublished(e, ttl, ending))
  {
    match ending
    case Acked => CommitPublishedEffect(s, e, ttl, Recorded, ending);
    case RaisedBefore => MovedKept(s, e, Failing(ProviderError), CommitPublished(e, ttl, ending));
    case RaisedAfter => CommitPublishedEffect(s, e, ttl, Failing(ProviderError), ending);
  }

  ghost function CommitDbLinkedRewrite(s: State, e: int, ttl: nat, p: Phase): Rewrite
    requires CanCommitDbLinked(s, e, ttl)
  {
    Rewrite(Beaten(s, e, ttl, |s.executors[e].digested|, DbLinked),
            FactOf(s, e).(resumeOffset := |s.executors[e].digested|), s.links[s.executors[e].task := LinkRowOf(s, e)],
                s.sealed, s.executors[e].(phase := p))
  }

  lemma CommitDbLinkedIsFair(s: State, e: int, ttl: nat, p: Phase)
    requires Local(s, e) && CanCommitDbLinked(s, e, ttl) && AfterCommit(p, RowLinked)
    ensures Fair(s, e, CommitDbLinkedRewrite(s, e, ttl, p))
  {
  }

  lemma CommitDbLinkedExecutor(s: State, e: int, ttl: nat, p: Phase)
    requires Local(s, e) && CanCommitDbLinked(s, e, ttl) && AfterCommit(p, RowLinked)
    ensures ExecutorOk(Rewritten(s, e, CommitDbLinkedRewrite(s, e, ttl, p)), e)
  {
  }

  lemma CommitDbLinkedHolder(s: State, e: int, ttl: nat, p: Phase)
    requires Local(s, e) && CanCommitDbLinked(s, e, ttl) && AfterCommit(p, RowLinked)
    requires ExecutorOk(Rewritten(s, e, CommitDbLinkedRewrite(s, e, ttl, p)), e)
    ensures Current(Rewritten(s, e, CommitDbLinkedRewrite(s, e, ttl, p)), e) ==>
            HolderOk(Rewritten(s, e, CommitDbLinkedRewrite(s, e, ttl, p)), e)
  {
  }

  lemma CommitDbLinkedTask(s: State, e: int, ttl: nat, p: Phase)
    requires Local(s, e) && CanCommitDbLinked(s, e, ttl) && AfterCommit(p, RowLinked)
    requires Structure(Rewritten(s, e, CommitDbLinkedRewrite(s, e, ttl, p)))
    ensures TaskOk(Rewritten(s, e, CommitDbLinkedRewrite(s, e, ttl, p)), s.executors[e].task)
  {
  }

  lemma CommitDbLinkedEffect(s: State, e: int, ttl: nat, p: Phase, ending: Ending)
    requires Inv(s) && CanCommitDbLinked(s, e, ttl) && AfterCommit(p, RowLinked)
    ensures Kept(s, Rewritten(s, e, CommitDbLinkedRewrite(s, e, ttl, p)), CommitDbLinked(e, ttl, ending))
  {
    LocalOf(s, e);
    CommitDbLinkedIsFair(s, e, ttl, p);
    RewrittenStructure(s, e, CommitDbLinkedRewrite(s, e, ttl, p));
    CommitDbLinkedExecutor(s, e, ttl, p);
    CommitDbLinkedHolder(s, e, ttl, p);
    CommitDbLinkedTask(s, e, ttl, p);
    RewrittenIsKept(s, e, CommitDbLinkedRewrite(s, e, ttl, p), CommitDbLinked(e, ttl, ending));
  }

  lemma CommitDbLinkedKept(s: State, e: int, ttl: nat, ending: Ending)
    requires Inv(s) && CanCommitDbLinked(s, e, ttl)
    ensures Kept(s, DoCommitDbLinked(s, e, ttl, ending), CommitDbLinked(e, ttl, ending))
  {
    match ending
    case Acked => CommitDbLinkedEffect(s, e, ttl, RowLinked, ending);
    case RaisedBefore => MovedKept(s, e, Failing(ProviderError), CommitDbLinked(e, ttl, ending));
    case RaisedAfter => CommitDbLinkedEffect(s, e, ttl, Failing(ProviderError), ending);
  }

  ghost function CommitIndexedRewrite(s: State, e: int, ttl: nat, p: Phase): Rewrite
    requires CanCommitIndexed(s, e, ttl)
  {
    Rewrite(Beaten(s, e, ttl, |s.executors[e].digested|, IndexCoordinated),
            FactOf(s, e).(resumeOffset := |s.executors[e].digested|), s.links, s.sealed, s.executors[e].(phase := p))
  }

  lemma CommitIndexedIsFair(s: State, e: int, ttl: nat, p: Phase)
    requires Local(s, e) && CanCommitIndexed(s, e, ttl) && AfterCommit(p, Indexed)
    ensures Fair(s, e, CommitIndexedRewrite(s, e, ttl, p))
  {
  }

  lemma CommitIndexedExecutor(s: State, e: int, ttl: nat, p: Phase)
    requires Local(s, e) && CanCommitIndexed(s, e, ttl) && AfterCommit(p, Indexed)
    ensures ExecutorOk(Rewritten(s, e, CommitIndexedRewrite(s, e, ttl, p)), e)
  {
  }

  lemma CommitIndexedHolder(s: State, e: int, ttl: nat, p: Phase)
    requires Local(s, e) && CanCommitIndexed(s, e, ttl) && AfterCommit(p, Indexed)
    requires ExecutorOk(Rewritten(s, e, CommitIndexedRewrite(s, e, ttl, p)), e)
    ensures Current(Rewritten(s, e, CommitIndexedRewrite(s, e, ttl, p)), e) ==>
            HolderOk(Rewritten(s, e, CommitIndexedRewrite(s, e, ttl, p)), e)
  {
  }

  lemma CommitIndexedTask(s: State, e: int, ttl: nat, p: Phase)
    requires Local(s, e) && CanCommitIndexed(s, e, ttl) && AfterCommit(p, Indexed)
    requires Structure(Rewritten(s, e, CommitIndexedRewrite(s, e, ttl, p)))
    ensures TaskOk(Rewritten(s, e, CommitIndexedRewrite(s, e, ttl, p)), s.executors[e].task)
  {
  }

  lemma CommitIndexedEffect(s: State, e: int, ttl: nat, p: Phase, ending: Ending)
    requires Inv(s) && CanCommitIndexed(s, e, ttl) && AfterCommit(p, Indexed)
    ensures Kept(s, Rewritten(s, e, CommitIndexedRewrite(s, e, ttl, p)), CommitIndexed(e, ttl, ending))
  {
    LocalOf(s, e);
    CommitIndexedIsFair(s, e, ttl, p);
    RewrittenStructure(s, e, CommitIndexedRewrite(s, e, ttl, p));
    CommitIndexedExecutor(s, e, ttl, p);
    CommitIndexedHolder(s, e, ttl, p);
    CommitIndexedTask(s, e, ttl, p);
    RewrittenIsKept(s, e, CommitIndexedRewrite(s, e, ttl, p), CommitIndexed(e, ttl, ending));
  }

  lemma CommitIndexedKept(s: State, e: int, ttl: nat, ending: Ending)
    requires Inv(s) && CanCommitIndexed(s, e, ttl)
    ensures Kept(s, DoCommitIndexed(s, e, ttl, ending), CommitIndexed(e, ttl, ending))
  {
    match ending
    case Acked => CommitIndexedEffect(s, e, ttl, Indexed, ending);
    case RaisedBefore => MovedKept(s, e, Failing(ProviderError), CommitIndexed(e, ttl, ending));
    case RaisedAfter => CommitIndexedEffect(s, e, ttl, Failing(ProviderError), ending);
  }

  ghost function CommitSucceededRewrite(s: State, e: int, version: nat, p: Phase): Rewrite
    requires CanCommitSucceeded(s, e, version)
  {
    Rewrite(Transition(RowOf(s, e), Succeeded, version).value.(stage := DurableVerified), FactOf(s, e), s.links,
            s.sealed, s.executors[e].(phase := p))
  }

  lemma CommitSucceededIsFair(s: State, e: int, version: nat, p: Phase)
    requires Local(s, e) && CanCommitSucceeded(s, e, version) && AfterCommit(p, Finished)
    ensures Fair(s, e, CommitSucceededRewrite(s, e, version, p))
  {
  }

  lemma CommitSucceededExecutor(s: State, e: int, version: nat, p: Phase)
    requires Local(s, e) && CanCommitSucceeded(s, e, version) && AfterCommit(p, Finished)
    ensures ExecutorOk(Rewritten(s, e, CommitSucceededRewrite(s, e, version, p)), e)
  {
  }

  lemma CommitSucceededHolder(s: State, e: int, version: nat, p: Phase)
    requires Local(s, e) && CanCommitSucceeded(s, e, version) && AfterCommit(p, Finished)
    requires ExecutorOk(Rewritten(s, e, CommitSucceededRewrite(s, e, version, p)), e)
    ensures Current(Rewritten(s, e, CommitSucceededRewrite(s, e, version, p)), e) ==>
            HolderOk(Rewritten(s, e, CommitSucceededRewrite(s, e, version, p)), e)
  {
  }

  lemma CommitSucceededTask(s: State, e: int, version: nat, p: Phase)
    requires Local(s, e) && CanCommitSucceeded(s, e, version) && AfterCommit(p, Finished)
    requires Structure(Rewritten(s, e, CommitSucceededRewrite(s, e, version, p)))
    ensures TaskOk(Rewritten(s, e, CommitSucceededRewrite(s, e, version, p)), s.executors[e].task)
  {
  }

  lemma CommitSucceededEffect(s: State, e: int, version: nat, p: Phase, ending: Ending)
    requires Inv(s) && CanCommitSucceeded(s, e, version) && AfterCommit(p, Finished)
    ensures Kept(s, Rewritten(s, e, CommitSucceededRewrite(s, e, version, p)), CommitSucceeded(e, version, ending))
  {
    LocalOf(s, e);
    CommitSucceededIsFair(s, e, version, p);
    RewrittenStructure(s, e, CommitSucceededRewrite(s, e, version, p));
    CommitSucceededExecutor(s, e, version, p);
    CommitSucceededHolder(s, e, version, p);
    CommitSucceededTask(s, e, version, p);
    RewrittenIsKept(s, e, CommitSucceededRewrite(s, e, version, p), CommitSucceeded(e, version, ending));
  }

  lemma SameFact(s: State, t: int)
    requires t in s.facts
    ensures s.facts[t := s.facts[t]] == s.facts
  {
  }

  lemma CommitSucceededKept(s: State, e: int, version: nat, ending: Ending)
    requires Inv(s) && CanCommitSucceeded(s, e, version)
    ensures Kept(s, DoCommitSucceeded(s, e, version, ending), CommitSucceeded(e, version, ending))
  {
    SameFact(s, s.executors[e].task);
    match ending
    case Acked => CommitSucceededEffect(s, e, version, Finished, ending);
    case RaisedBefore => MovedKept(s, e, Failing(ProviderError), CommitSucceeded(e, version, ending));
    case RaisedAfter => CommitSucceededEffect(s, e, version, Failing(ProviderError), ending);
  }

  // ---------------------------------------------------------------- the stream

  lemma ReceiveFrame(s: State, e: int, ttl: nat, chunk: Bytes)
    requires Local(s, e) && CanReceive(s, e, ttl, chunk)
    ensures OnlyTouches(s, DoReceive(s, e, ttl, chunk), e)
  {
  }

  lemma ReceivePermanent(s: State, e: int, ttl: nat, chunk: Bytes)
    requires Local(s, e) && CanReceive(s, e, ttl, chunk)
    ensures Structure(DoReceive(s, e, ttl, chunk)) && PermanentRows(s, DoReceive(s, e, ttl, chunk))
            && SameRecords(s, DoReceive(s, e, ttl, chunk)) && NamesFollow(s, DoReceive(s, e, ttl, chunk))
    ensures PermanentFiles(s, DoReceive(s, e, ttl, chunk)) && PermanentRuns(s, DoReceive(s, e, ttl, chunk))
            && SameData(s, DoReceive(s, e, ttl, chunk))
  {
  }

  lemma ReceiveIsLocal(s: State, e: int, ttl: nat, chunk: Bytes)
    requires Local(s, e) && CanReceive(s, e, ttl, chunk)
    ensures Structure(DoReceive(s, e, ttl, chunk)) ==> Local(DoReceive(s, e, ttl, chunk), e)
  {
  }

  lemma ReceiveKept(s: State, e: int, ttl: nat, chunk: Bytes)
    requires Inv(s) && CanReceive(s, e, ttl, chunk)
    ensures Kept(s, DoReceive(s, e, ttl, chunk), Receive(e, ttl, chunk))
  {
    LocalOf(s, e);
    ReceiveFrame(s, e, ttl, chunk);
    ReceivePermanent(s, e, ttl, chunk);
    ReceiveIsLocal(s, e, ttl, chunk);
    GoodStepIsKept(s, DoReceive(s, e, ttl, chunk), Receive(e, ttl, chunk));
  }

  lemma PieceJoins(chunk: Bytes, written: nat, count: nat)
    requires written + count <= |chunk|
    ensures forall content: Bytes ::
              content + chunk[..written] + chunk[written..written + count] == content + chunk[..written + count]
  {
    assert chunk[..written] + chunk[written..written + count] == chunk[..written + count];
  }

  lemma PieceIsWritten(s: State, e: int, count: nat)
    requires CanWriteSome(s, e, count) && s.files.data[Inode(s, e)] == Written(s.executors[e])
    ensures DoWriteSome(s, e, count).files.data[Inode(s, e)] == Written(DoWriteSome(s, e, count).executors[e])
  {
    PieceJoins(s.executors[e].phase.chunk, s.executors[e].phase.written, count);
  }

  lemma WriteSomeFrame(s: State, e: int, count: nat)
    requires Local(s, e) && CanWriteSome(s, e, count)
    ensures OnlyTouches(s, DoWriteSome(s, e, count), e)
  {
  }

  lemma WriteSomePermanent(s: State, e: int, count: nat)
    requires Local(s, e) && CanWriteSome(s, e, count)
    ensures Structure(DoWriteSome(s, e, count)) && PermanentRows(s, DoWriteSome(s, e, count))
            && SameRecords(s, DoWriteSome(s, e, count)) && NamesFollow(s, DoWriteSome(s, e, count))
    ensures PermanentFiles(s, DoWriteSome(s, e, count)) && PermanentRuns(s, DoWriteSome(s, e, count))
  {
  }

  lemma WriteSomeExecutor(s: State, e: int, count: nat)
    requires Local(s, e) && CanWriteSome(s, e, count)
    ensures ExecutorOk(DoWriteSome(s, e, count), e)
  {
  }

  lemma WriteSomeHolder(s: State, e: int, count: nat)
    requires Local(s, e) && CanWriteSome(s, e, count) && Current(DoWriteSome(s, e, count), e)
    ensures HolderOk(DoWriteSome(s, e, count), e)
  {
    PieceIsWritten(s, e, count);
  }

  lemma WriteSomeTask(s: State, e: int, count: nat)
    requires Local(s, e) && CanWriteSome(s, e, count) && Structure(DoWriteSome(s, e, count))
    ensures TaskOk(DoWriteSome(s, e, count), s.executors[e].task)
  {
  }

  lemma WriteSomeKept(s: State, e: int, count: nat)
    requires Inv(s) && CanWriteSome(s, e, count)
    ensures Kept(s, DoWriteSome(s, e, count), WriteSome(e, count))
  {
    LocalOf(s, e);
    WriteSomeFrame(s, e, count);
    WriteSomePermanent(s, e, count);
    WriteSomeExecutor(s, e, count);
    if Current(DoWriteSome(s, e, count), e) {
      WriteSomeHolder(s, e, count);
    }
    WriteSomeTask(s, e, count);
    GoodStepIsKept(s, DoWriteSome(s, e, count), WriteSome(e, count));
  }

  /** A chunk and its offset, once their commit has taken effect. */
  ghost function ChunkTaken(s: State, e: int, p: Phase): State
    requires CanCommitChunk(s, e)
  {
    var x := s.executors[e];
    var content := x.digested + x.phase.chunk;
    s.(fence := if s.fence == Some(e) then None else s.fence,
       tasks := s.tasks[x.task := RowOf(s, e).(
         leaseExpiresAt := Some(x.phase.until), bytesProcessed := |content|, stage := Downloading)],
       facts := s.facts[x.task := FactOf(s, e).(resumeOffset := |content|)],
       executors := s.executors[e := x.(digested := content, phase := p)])
  }

  lemma ChunkFrame(s: State, e: int, p: Phase)
    requires Local(s, e) && CanCommitChunk(s, e) && AfterCommit(p, Streaming)
    ensures OnlyTouches(s, ChunkTaken(s, e, p), e)
  {
  }

  lemma ChunkRows(s: State, e: int, p: Phase)
    requires Local(s, e) && CanCommitChunk(s, e) && AfterCommit(p, Streaming)
    ensures Structure(ChunkTaken(s, e, p)) && PermanentRows(s, ChunkTaken(s, e, p))
            && FactFollows(s, ChunkTaken(s, e, p), e) && NamesFollow(s, ChunkTaken(s, e, p))
  {
  }

  lemma ChunkFiles(s: State, e: int, p: Phase)
    requires Local(s, e) && CanCommitChunk(s, e) && AfterCommit(p, Streaming)
    ensures PermanentFiles(s, ChunkTaken(s, e, p)) && PermanentRuns(s, ChunkTaken(s, e, p))
            && SameData(s, ChunkTaken(s, e, p))
  {
  }

  lemma ChunkIsLocal(s: State, e: int, p: Phase)
    requires Local(s, e) && CanCommitChunk(s, e) && AfterCommit(p, Streaming)
    ensures Structure(ChunkTaken(s, e, p)) ==> Local(ChunkTaken(s, e, p), e)
  {
  }

  lemma ChunkKept(s: State, e: int, p: Phase, step: Step)
    requires Inv(s) && CanCommitChunk(s, e) && AfterCommit(p, Streaming) && step.CommitChunk? && step.e == e
    ensures Kept(s, ChunkTaken(s, e, p), step)
  {
    LocalOf(s, e);
    ChunkFrame(s, e, p);
    ChunkRows(s, e, p);
    ChunkFiles(s, e, p);
    ChunkIsLocal(s, e, p);
    GoodStepIsKept(s, ChunkTaken(s, e, p), step);
  }

  predicate RollsBack(from: Phase, to: Phase) {
    LeavesRun(from, to) && (to.Ended? || to.Failing?)
  }

  lemma RolledBackFrame(s: State, e: int, p: Phase)
    requires Local(s, e) && e in s.executors && RollsBack(s.executors[e].phase, p)
    ensures OnlyTouches(s, RolledBack(s, e, p), e)
  {
  }

  lemma RolledBackPermanent(s: State, e: int, p: Phase)
    requires Local(s, e) && e in s.executors && RollsBack(s.executors[e].phase, p)
    ensures Structure(RolledBack(s, e, p)) && PermanentRows(s, RolledBack(s, e, p))
            && SameRecords(s, RolledBack(s, e, p)) && NamesFollow(s, RolledBack(s, e, p))
    ensures PermanentFiles(s, RolledBack(s, e, p)) && PermanentRuns(s, RolledBack(s, e, p))
            && SameData(s, RolledBack(s, e, p))
  {
  }

  lemma RolledBackIsLocal(s: State, e: int, p: Phase)
    requires Local(s, e) && e in s.executors && RollsBack(s.executors[e].phase, p)
    ensures Structure(RolledBack(s, e, p)) ==> Local(RolledBack(s, e, p), e)
  {
  }

  lemma RolledBackKept(s: State, e: int, p: Phase, step: Step)
    requires Inv(s) && e in s.executors && RollsBack(s.executors[e].phase, p) && HasMover(step) && step.e == e
             && !step.WriteSome?
    requires PhaseMoves(step, s.executors[e].phase, p)
    ensures Kept(s, RolledBack(s, e, p), step)
  {
    LocalOf(s, e);
    RolledBackFrame(s, e, p);
    RolledBackPermanent(s, e, p);
    RolledBackIsLocal(s, e, p);
    GoodStepIsKept(s, RolledBack(s, e, p), step);
  }

  lemma CommitChunkKept(s: State, e: int, ending: Ending)
    requires Inv(s) && CanCommitChunk(s, e)
    ensures Kept(s, DoCommitChunk(s, e, ending), CommitChunk(e, ending))
  {
    match ending
    case Acked => ChunkKept(s, e, Streaming, CommitChunk(e, ending));
    case RaisedBefore => RolledBackKept(s, e, Failing(ProviderError), CommitChunk(e, ending));
    case RaisedAfter => ChunkKept(s, e, Failing(ProviderError), CommitChunk(e, ending));
  }

  lemma RaiseKept(s: State, e: int, code: ErrorCode)
    requires Inv(s) && CanRaise(s, e)
    ensures Kept(s, DoRaise(s, e, code), Raise(e, code))
  {
    RolledBackKept(s, e, RaisedTo(s.executors[e].phase, code), Raise(e, code));
  }

  lemma CrashKept(s: State, e: int)
    requires Inv(s) && CanCrash(s, e)
    ensures Kept(s, DoCrash(s, e), Crash(e))
  {
    RolledBackKept(s, e, Ended, Crash(e));
  }

  lemma FinishKept(s: State, e: int)
    requires Inv(s) && CanFinish(s, e)
    ensures Kept(s, DoFinish(s, e), Finish(e))
  {
    MovedKept(s, e, Ended, Finish(e));
  }

  // ---------------------------------------------------------------- names

  lemma LinkTargetFrame(s: State, e: int)
    requires Local(s, e) && CanLinkTarget(s, e)
    ensures OnlyTouches(s, DoLinkTarget(s, e), e)
  {
  }

  lemma LinkTargetPermanent(s: State, e: int)
    requires Local(s, e) && CanLinkTarget(s, e)
    ensures Structure(DoLinkTarget(s, e)) && PermanentRows(s, DoLinkTarget(s, e)) && SameRecords(s, DoLinkTarget(s, e))
            && NamesFollow(s, DoLinkTarget(s, e))
    ensures PermanentFiles(s, DoLinkTarget(s, e)) && PermanentRuns(s, DoLinkTarget(s, e))
            && SameData(s, DoLinkTarget(s, e))
  {
  }

  lemma LinkTargetExecutor(s: State, e: int)
    requires Local(s, e) && CanLinkTarget(s, e)
    ensures ExecutorOk(DoLinkTarget(s, e), e)
  {
  }

  lemma LinkTargetHolder(s: State, e: int)
    requires Local(s, e) && CanLinkTarget(s, e) && Current(DoLinkTarget(s, e), e)
    ensures HolderOk(DoLinkTarget(s, e), e)
  {
  }

  lemma LinkTargetTask(s: State, e: int)
    requires Local(s, e) && CanLinkTarget(s, e) && Structure(DoLinkTarget(s, e))
    ensures TaskOk(DoLinkTarget(s, e), s.executors[e].task)
  {
  }

  lemma LinkTargetKept(s: State, e: int)
    requires Inv(s) && CanLinkTarget(s, e)
    ensures Kept(s, DoLinkTarget(s, e), LinkTarget(e))
  {
    LocalOf(s, e);
    LinkTargetFrame(s, e);
    LinkTargetPermanent(s, e);
    LinkTargetExecutor(s, e);
    if Current(DoLinkTarget(s, e), e) {
      LinkTargetHolder(s, e);
    }
    LinkTargetTask(s, e);
    GoodStepIsKept(s, DoLinkTarget(s, e), LinkTarget(e));
  }

  lemma UnlinkTempFrame(s: State, e: int)
    requires Local(s, e) && CanUnlinkTemp(s, e)
    ensures OnlyTouches(s, DoUnlinkTemp(s, e), e)
  {
  }

  lemma UnlinkTempPermanent(s: State, e: int)
    requires Local(s, e) && CanUnlinkTemp(s, e)
    ensures Structure(DoUnlinkTemp(s, e)) && PermanentRows(s, DoUnlinkTemp(s, e)) && SameRecords(s, DoUnlinkTemp(s, e))
            && NamesFollow(s, DoUnlinkTemp(s, e))
    ensures PermanentFiles(s, DoUnlinkTemp(s, e)) && PermanentRuns(s, DoUnlinkTemp(s, e))
            && SameData(s, DoUnlinkTemp(s, e))
  {
  }

  lemma UnlinkTempExecutor(s: State, e: int)
    requires Local(s, e) && CanUnlinkTemp(s, e)
    ensures ExecutorOk(DoUnlinkTemp(s, e), e)
  {
  }

  lemma UnlinkTempHolder(s: State, e: int)
    requires Local(s, e) && CanUnlinkTemp(s, e) && Current(DoUnlinkTemp(s, e), e)
    ensures HolderOk(DoUnlinkTemp(s, e), e)
  {
  }

  lemma UnlinkTempTask(s: State, e: int)
    requires Local(s, e) && CanUnlinkTemp(s, e) && Structure(DoUnlinkTemp(s, e))
    ensures TaskOk(DoUnlinkTemp(s, e), s.executors[e].task)
  {
  }

  lemma UnlinkTempKept(s: State, e: int)
    requires Inv(s) && CanUnlinkTemp(s, e)
    ensures Kept(s, DoUnlinkTemp(s, e), UnlinkTemp(e))
  {
    LocalOf(s, e);
    UnlinkTempFrame(s, e);
    UnlinkTempPermanent(s, e);
    UnlinkTempExecutor(s, e);
    if Current(DoUnlinkTemp(s, e), e) {
      UnlinkTempHolder(s, e);
    }
    UnlinkTempTask(s, e);
    GoodStepIsKept(s, DoUnlinkTemp(s, e), UnlinkTemp(e));
  }

  lemma HandlerUnlinkFrame(s: State, e: int)
    requires Local(s, e) && CanHandlerUnlink(s, e)
    ensures OnlyTouches(s, DoHandlerUnlink(s, e), e)
  {
  }

  lemma HandlerUnlinkPermanent(s: State, e: int)
    requires Local(s, e) && CanHandlerUnlink(s, e)
    ensures Structure(DoHandlerUnlink(s, e)) && PermanentRows(s, DoHandlerUnlink(s, e))
            && SameRecords(s, DoHandlerUnlink(s, e)) && NamesFollow(s, DoHandlerUnlink(s, e))
    ensures PermanentFiles(s, DoHandlerUnlink(s, e)) && PermanentRuns(s, DoHandlerUnlink(s, e))
            && SameData(s, DoHandlerUnlink(s, e))
  {
  }

  lemma HandlerUnlinkExecutor(s: State, e: int)
    requires Local(s, e) && CanHandlerUnlink(s, e)
    ensures ExecutorOk(DoHandlerUnlink(s, e), e)
  {
  }

  lemma HandlerUnlinkHolder(s: State, e: int)
    requires Local(s, e) && CanHandlerUnlink(s, e) && Current(DoHandlerUnlink(s, e), e)
    ensures HolderOk(DoHandlerUnlink(s, e), e)
  {
  }

  lemma HandlerUnlinkTask(s: State, e: int)
    requires Local(s, e) && CanHandlerUnlink(s, e) && Structure(DoHandlerUnlink(s, e))
    ensures TaskOk(DoHandlerUnlink(s, e), s.executors[e].task)
  {
  }

  lemma HandlerUnlinkKept(s: State, e: int)
    requires Inv(s) && CanHandlerUnlink(s, e)
    ensures Kept(s, DoHandlerUnlink(s, e), HandlerUnlink(e))
  {
    LocalOf(s, e);
    HandlerUnlinkFrame(s, e);
    HandlerUnlinkPermanent(s, e);
    HandlerUnlinkExecutor(s, e);
    if Current(DoHandlerUnlink(s, e), e) {
      HandlerUnlinkHolder(s, e);
    }
    HandlerUnlinkTask(s, e);
    GoodStepIsKept(s, DoHandlerUnlink(s, e), HandlerUnlink(e));
  }

  // ---------------------------------------------------------------- the handler

  ghost function MarkUnknownRewrite(s: State, e: int, version: nat): Rewrite
    requires CanMarkUnknown(s, e, version)
  {
    Rewrite(MarkVerificationUnknown(RowOf(s, e), version, DurableVerified).value,
            FactOf(s, e), s.links, s.sealed,
            s.executors[e].(phase := s.executors[e].phase))
  }

  lemma MarkUnknownIs(s: State, e: int, version: nat)
    requires CanMarkUnknown(s, e, version)
    ensures DoMarkUnknown(s, e, version) == Rewritten(s, e, MarkUnknownRewrite(s, e, version))
  {
    var t := s.executors[e].task;
    assert s.tasks[t := s.tasks[t]] == s.tasks && s.facts[t := s.facts[t]] == s.facts;
    assert s.executors[e := s.executors[e]] == s.executors;
  }

  lemma MarkUnknownIsFair(s: State, e: int, version: nat)
    requires Local(s, e) && CanMarkUnknown(s, e, version)
    ensures Fair(s, e, MarkUnknownRewrite(s, e, version))
  {
  }

  lemma MarkUnknownIsGood(s: State, e: int, version: nat)
    requires Local(s, e) && CanMarkUnknown(s, e, version)
    ensures GoodRewrite(s, e, MarkUnknownRewrite(s, e, version))
  {
  }

  lemma MarkUnknownKept(s: State, e: int, version: nat)
    requires Inv(s) && CanMarkUnknown(s, e, version)
    ensures Kept(s, DoMarkUnknown(s, e, version), MarkUnknown(e, version))
  {
    var w := MarkUnknownRewrite(s, e, version);
    LocalOf(s, e);
    MarkUnknownIsFair(s, e, version);
    MarkUnknownIsGood(s, e, version);
    MarkUnknownIs(s, e, version);
    RewrittenIsKept(s, e, w, MarkUnknown(e, version));
  }

  ghost function HandlerTransitionRewrite(s: State, e: int, version: nat): Rewrite
    requires CanHandlerTransition(s, e, version)
  {
    Rewrite(Transition(RowOf(s, e), HandlerTarget(s.executors[e].phase.code, s.executors[e].published), version).value,
            FactOf(s, e), s.links, s.sealed,
            s.executors[e].(phase := Settling(s.executors[e].phase.code)))
  }

  lemma HandlerTransitionIs(s: State, e: int, version: nat)
    requires CanHandlerTransition(s, e, version)
    ensures DoHandlerTransition(s, e, version) == Rewritten(s, e, HandlerTransitionRewrite(s, e, version))
  {
    var t := s.executors[e].task;
    assert s.tasks[t := s.tasks[t]] == s.tasks && s.facts[t := s.facts[t]] == s.facts;
    assert s.executors[e := s.executors[e]] == s.executors;
  }

  lemma HandlerTransitionIsFair(s: State, e: int, version: nat)
    requires Local(s, e) && CanHandlerTransition(s, e, version)
    ensures Fair(s, e, HandlerTransitionRewrite(s, e, version))
  {
  }

  lemma HandlerTransitionExecutor(s: State, e: int, version: nat)
    requires Local(s, e) && CanHandlerTransition(s, e, version)
    ensures ExecutorOk(Rewritten(s, e, HandlerTransitionRewrite(s, e, version)), e)
  {
    var moved := HandlerTransitionRewrite(s, e, version).row;
    assert moved.leaseGeneration == RowOf(s, e).leaseGeneration && RowGrows(RowOf(s, e), moved);
  }

  lemma HandlerTransitionHolder(s: State, e: int, version: nat)
    requires Local(s, e) && CanHandlerTransition(s, e, version)
    requires Current(Rewritten(s, e, HandlerTransitionRewrite(s, e, version)), e)
    ensures HolderOk(Rewritten(s, e, HandlerTransitionRewrite(s, e, version)), e)
  {
  }

  lemma HandlerTransitionTask(s: State, e: int, version: nat)
    requires Local(s, e) && CanHandlerTransition(s, e, version)
    requires Structure(Rewritten(s, e, HandlerTransitionRewrite(s, e, version)))
    ensures TaskOk(Rewritten(s, e, HandlerTransitionRewrite(s, e, version)), s.executors[e].task)
  {
  }

  lemma HandlerTransitionIsGood(s: State, e: int, version: nat)
    requires Local(s, e) && CanHandlerTransition(s, e, version)
    ensures GoodRewrite(s, e, HandlerTransitionRewrite(s, e, version))
  {
    var r := Rewritten(s, e, HandlerTransitionRewrite(s, e, version));
    HandlerTransitionExecutor(s, e, version);
    if Current(r, e) {
      HandlerTransitionHolder(s, e, version);
    }
    if Structure(r) {
      HandlerTransitionTask(s, e, version);
    }
  }

  lemma HandlerTransitionKept(s: State, e: int, version: nat)
    requires Inv(s) && CanHandlerTransition(s, e, version)
    ensures Kept(s, DoHandlerTransition(s, e, version), HandlerTransition(e, version))
  {
    var w := HandlerTransitionRewrite(s, e, version);
    LocalOf(s, e);
    HandlerTransitionIsFair(s, e, version);
    HandlerTransitionIsGood(s, e, version);
    HandlerTransitionIs(s, e, version);
    RewrittenIsKept(s, e, w, HandlerTransition(e, version));
  }

  ghost function HandlerClearRewrite(s: State, e: int): Rewrite
    requires CanHandlerClear(s, e)
  {
    Rewrite(RowOf(s, e),
            FactOf(s, e).(temp := None, resumeOffset := 0), s.links, s.sealed,
            s.executors[e].(phase := Ended))
  }

  lemma HandlerClearIs(s: State, e: int)
    requires CanHandlerClear(s, e)
    ensures DoHandlerClear(s, e) == Rewritten(s, e, HandlerClearRewrite(s, e))
  {
    var t := s.executors[e].task;
    assert s.tasks[t := s.tasks[t]] == s.tasks && s.facts[t := s.facts[t]] == s.facts;
    assert s.executors[e := s.executors[e]] == s.executors;
  }

  lemma HandlerClearIsFair(s: State, e: int)
    requires Local(s, e) && CanHandlerClear(s, e)
    ensures Fair(s, e, HandlerClearRewrite(s, e))
  {
  }

  lemma HandlerClearExecutor(s: State, e: int)
    requires Local(s, e) && CanHandlerClear(s, e)
    ensures ExecutorOk(Rewritten(s, e, HandlerClearRewrite(s, e)), e)
  {
  }

  lemma HandlerClearHolder(s: State, e: int)
    requires Local(s, e) && CanHandlerClear(s, e)
    requires Current(Rewritten(s, e, HandlerClearRewrite(s, e)), e)
    ensures HolderOk(Rewritten(s, e, HandlerClearRewrite(s, e)), e)
  {
  }

  lemma HandlerClearTask(s: State, e: int)
    requires Local(s, e) && CanHandlerClear(s, e)
    requires Structure(Rewritten(s, e, HandlerClearRewrite(s, e)))
    ensures TaskOk(Rewritten(s, e, HandlerClearRewrite(s, e)), s.executors[e].task)
  {
  }

  lemma HandlerClearKept(s: State, e: int)
    requires Inv(s) && CanHandlerClear(s, e)
    ensures Kept(s, DoHandlerClear(s, e), HandlerClear(e))
  {
    var w := HandlerClearRewrite(s, e);
    LocalOf(s, e);
    HandlerClearIsFair(s, e);
    RewrittenStructure(s, e, w);
    HandlerClearExecutor(s, e);
    if Current(Rewritten(s, e, w), e) {
      HandlerClearHolder(s, e);
    }
    HandlerClearTask(s, e);
    HandlerClearIs(s, e);
    RewrittenIsKept(s, e, w, HandlerClear(e));
  }

  // ---------------------------------------------------------------- every step

  lemma NothingKept(s: State, step: Step)
    requires Inv(s)
    ensures Kept(s, s, step)
  {
  }

  lemma AfterCommitVerified(s: State, e: int, ttl: nat, ending: Ending)
    ensures After(s, CommitVerified(e, ttl, ending)) == if CanCommitVerified(s, e, ttl)
            then DoCommitVerified(s, e, ttl, ending) else s
  {
  }

  lemma AfterLinkTarget(s: State, e: int)
    ensures After(s, LinkTarget(e)) == if CanLinkTarget(s, e) then DoLinkTarget(s, e) else s
  {
  }

  lemma AfterCommitPublished(s: State, e: int, ttl: nat, ending: Ending)
    ensures After(s, CommitPublished(e, ttl, ending)) == if CanCommitPublished(s, e, ttl)
            then DoCommitPublished(s, e, ttl, ending) else s
  {
  }

  lemma AfterCommitDbLinked(s: State, e: int, ttl: nat, ending: Ending)
    ensures After(s, CommitDbLinked(e, ttl, ending)) == if CanCommitDbLinked(s, e, ttl)
            then DoCommitDbLinked(s, e, ttl, ending) else s
  {
  }

  lemma AfterCommitIndexed(s: State, e: int, ttl: nat, ending: Ending)
    ensures After(s, CommitIndexed(e, ttl, ending)) == if CanCommitIndexed(s, e, ttl)
            then DoCommitIndexed(s, e, ttl, ending) else s
  {
  }

  lemma AfterCommitSucceeded(s: State, e: int, version: nat, ending: Ending)
    ensures After(s, CommitSucceeded(e, version, ending)) == if CanCommitSucceeded(s, e, version)
            then DoCommitSucceeded(s, e, version, ending) else s
  {
  }

  lemma AfterMarkUnknown(s: State, e: int, version: nat)
    ensures After(s, MarkUnknown(e, version)) == if CanMarkUnknown(s, e, version) then DoMarkUnknown(s, e, version)
            else s
  {
  }

  lemma AfterHandlerTransition(s: State, e: int, version: nat)
    ensures After(s, HandlerTransition(e, version)) == if CanHandlerTransition(s, e, version)
            then DoHandlerTransition(s, e, version) else s
  {
  }

  lemma AfterHandlerUnlink(s: State, e: int)
    ensures After(s, HandlerUnlink(e)) == if CanHandlerUnlink(s, e) then DoHandlerUnlink(s, e) else s
  {
  }

  lemma AfterFinish(s: State, e: int)
    ensures After(s, Finish(e)) == if CanFinish(s, e) then DoFinish(s, e) else s
  {
  }

  lemma AfterCrash(s: State, e: int)
    ensures After(s, Crash(e)) == if CanCrash(s, e) then DoCrash(s, e) else s
  {
  }

  lemma TickKeeps(s: State, to: int)
    requires Inv(s)
    ensures Kept(s, After(s, Tick(to)), Tick(to))
  {
    assert After(s, Tick(to)) == if CanTick(s, to) then DoTick(s, to) else s;
    if CanTick(s, to) {
      TickKept(s, to);
    } else {
      NothingKept(s, Tick(to));
    }
  }

  lemma NewTaskKeeps(s: State, t: int, row: TaskRow, fact: DownloadFact)
    requires Inv(s)
    ensures Kept(s, After(s, NewTask(t, row, fact)), NewTask(t, row, fact))
  {
    assert After(s, NewTask(t, row, fact)) == if CanNewTask(s, t, row, fact) then DoNewTask(s, t, row, fact) else s;
    if CanNewTask(s, t, row, fact) {
      NewTaskKept(s, t, row, fact);
    } else {
      NothingKept(s, NewTask(t, row, fact));
    }
  }

  lemma RowStepKeeps(s: State, t: int, op: RowOp)
    requires Inv(s)
    ensures Kept(s, After(s, RowStep(t, op)), RowStep(t, op))
  {
    assert After(s, RowStep(t, op)) == if CanRowStep(s, t, op) then DoRowStep(s, t, op) else s;
    if CanRowStep(s, t, op) {
      RowStepKept(s, t, op);
    } else {
      NothingKept(s, RowStep(t, op));
    }
  }

  lemma ForeignFileKeeps(s: State, name: string, inode: int, content: Bytes)
    requires Inv(s)
    ensures Kept(s, After(s, ForeignFile(name, inode, content)), ForeignFile(name, inode, content))
  {
    assert After(s, ForeignFile(name, inode, content)) == if CanForeignFile(s, name, inode)
           then DoForeignFile(s, name, inode, content) else s;
    if CanForeignFile(s, name, inode) {
      ForeignFileKept(s, name, inode, content);
    } else {
      NothingKept(s, ForeignFile(name, inode, content));
    }
  }

  lemma SweepKeeps(s: State, name: string)
    requires Inv(s)
    ensures Kept(s, After(s, Sweep(name)), Sweep(name))
  {
    assert After(s, Sweep(name)) == if CanSweep(s, name) then DoSweep(s, name) else s;
    if CanSweep(s, name) {
      SweepKept(s, name);
    } else {
      NothingKept(s, Sweep(name));
    }
  }

  lemma StartKeeps(s: State, e: int, t: int, owner: string, generation: nat)
    requires Inv(s)
    ensures Kept(s, After(s, Start(e, t, owner, generation)), Start(e, t, owner, generation))
  {
    assert After(s, Start(e, t, owner, generation)) == if CanStart(s, e, t, owner, generation)
           then DoStart(s, e, t, owner, generation) else s;
    if CanStart(s, e, t, owner, generation) {
      StartKept(s, e, t, owner, generation);
    } else {
      NothingKept(s, Start(e, t, owner, generation));
    }
  }

  lemma LoadKeeps(s: State, e: int)
    requires Inv(s)
    ensures Kept(s, After(s, Load(e)), Load(e))
  {
    assert After(s, Load(e)) == if CanLoad(s, e) then DoLoad(s, e) else s;
    if CanLoad(s, e) {
      LoadKept(s, e);
    } else {
      NothingKept(s, Load(e));
    }
  }

  lemma OpenKeeps(s: State, e: int, name: string, inode: int)
    requires Inv(s)
    ensures Kept(s, After(s, Open(e, name, inode)), Open(e, name, inode))
  {
    assert After(s, Open(e, name, inode)) == if CanOpen(s, e, name, inode) then DoOpen(s, e, name, inode) else s;
    if CanOpen(s, e, name, inode) {
      OpenKept(s, e, name, inode);
    } else {
      NothingKept(s, Open(e, name, inode));
    }
  }

  lemma CommitDownloadingKeeps(s: State, e: int, ttl: nat, ending: Ending)
    requires Inv(s)
    ensures Kept(s, After(s, CommitDownloading(e, ttl, ending)), CommitDownloading(e, ttl, ending))
  {
    assert After(s, CommitDownloading(e, ttl, ending)) == if CanCommitDownloading(s, e, ttl)
           then DoCommitDownloading(s, e, ttl, ending) else s;
    if CanCommitDownloading(s, e, ttl) {
      CommitDownloadingKept(s, e, ttl, ending);
    } else {
      NothingKept(s, CommitDownloading(e, ttl, ending));
    }
  }

  lemma ReceiveKeeps(s: State, e: int, ttl: nat, chunk: Bytes)
    requires Inv(s)
    ensures Kept(s, After(s, Receive(e, ttl, chunk)), Receive(e, ttl, chunk))
  {
    assert After(s, Receive(e, ttl, chunk)) == if CanReceive(s, e, ttl, chunk) then DoReceive(s, e, ttl, chunk) else s;
    if CanReceive(s, e, ttl, chunk) {
      ReceiveKept(s, e, ttl, chunk);
    } else {
      NothingKept(s, Receive(e, ttl, chunk));
    }
  }

  lemma WriteSomeKeeps(s: State, e: int, count: nat)
    requires Inv(s)
    ensures Kept(s, After(s, WriteSome(e, count)), WriteSome(e, count))
  {
    assert After(s, WriteSome(e, count)) == if CanWriteSome(s, e, count) then DoWriteSome(s, e, count) else s;
    if CanWriteSome(s, e, count) {
      WriteSomeKept(s, e, count);
    } else {
      NothingKept(s, WriteSome(e, count));
    }
  }

  lemma CommitChunkKeeps(s: State, e: int, ending: Ending)
    requires Inv(s)
    ensures Kept(s, After(s, CommitChunk(e, ending)), CommitChunk(e, ending))
  {
    assert After(s, CommitChunk(e, ending)) == if CanCommitChunk(s, e) then DoCommitChunk(s, e, ending) else s;
    if CanCommitChunk(s, e) {
      CommitChunkKept(s, e, ending);
    } else {
      NothingKept(s, CommitChunk(e, ending));
    }
  }

  lemma CommitVerifiedKeeps(s: State, e: int, ttl: nat, ending: Ending)
    requires Inv(s)
    ensures Kept(s, After(s, CommitVerified(e, ttl, ending)), CommitVerified(e, ttl, ending))
  {
    AfterCommitVerified(s, e, ttl, ending);
    if CanCommitVerified(s, e, ttl) {
      CommitVerifiedKept(s, e, ttl, ending);
    } else {
      NothingKept(s, CommitVerified(e, ttl, ending));
    }
  }

  lemma LinkTargetKeeps(s: State, e: int)
    requires Inv(s)
    ensures Kept(s, After(s, LinkTarget(e)), LinkTarget(e))
  {
    AfterLinkTarget(s, e);
    if CanLinkTarget(s, e) {
      LinkTargetKept(s, e);
    } else {
      NothingKept(s, LinkTarget(e));
    }
  }

  lemma UnlinkTempKeeps(s: State, e: int)
    requires Inv(s)
    ensures Kept(s, After(s, UnlinkTemp(e)), UnlinkTemp(e))
  {
    assert After(s, UnlinkTemp(e)) == if CanUnlinkTemp(s, e) then DoUnlinkTemp(s, e) else s;
    if CanUnlinkTemp(s, e) {
      UnlinkTempKept(s, e);
    } else {
      NothingKept(s, UnlinkTemp(e));
    }
  }

  lemma CommitPublishedKeeps(s: State, e: int, ttl: nat, ending: Ending)
    requires Inv(s)
    ensures Kept(s, After(s, CommitPublished(e, ttl, ending)), CommitPublished(e, ttl, ending))
  {
    AfterCommitPublished(s, e, ttl, ending);
    if CanCommitPublished(s, e, ttl) {
      CommitPublishedKept(s, e, ttl, ending);
    } else {
      NothingKept(s, CommitPublished(e, ttl, ending));
    }
  }

  lemma CommitDbLinkedKeeps(s: State, e: int, ttl: nat, ending: Ending)
    requires Inv(s)
    ensures Kept(s, After(s, CommitDbLinked(e, ttl, ending)), CommitDbLinked(e, ttl, ending))
  {
    AfterCommitDbLinked(s, e, ttl, ending);
    if CanCommitDbLinked(s, e, ttl) {
      CommitDbLinkedKept(s, e, ttl, ending);
    } else {
      NothingKept(s, CommitDbLinked(e, ttl, ending));
    }
  }

  lemma CommitIndexedKeeps(s: State, e: int, ttl: nat, ending: Ending)
    requires Inv(s)
    ensures Kept(s, After(s, CommitIndexed(e, ttl, ending)), CommitIndexed(e, ttl, ending))
  {
    AfterCommitIndexed(s, e, ttl, ending);
    if CanCommitIndexed(s, e, ttl) {
      CommitIndexedKept(s, e, ttl, ending);
    } else {
      NothingKept(s, CommitIndexed(e, ttl, ending));
    }
  }

  lemma CommitSucceededKeeps(s: State, e: int, version: nat, ending: Ending)
    requires Inv(s)
    ensures Kept(s, After(s, CommitSucceeded(e, version, ending)), CommitSucceeded(e, version, ending))
  {
    AfterCommitSucceeded(s, e, version, ending);
    if CanCommitSucceeded(s, e, version) {
      CommitSucceededKept(s, e, version, ending);
    } else {
      NothingKept(s, CommitSucceeded(e, version, ending));
    }
  }

  lemma MarkUnknownKeeps(s: State, e: int, version: nat)
    requires Inv(s)
    ensures Kept(s, After(s, MarkUnknown(e, version)), MarkUnknown(e, version))
  {
    AfterMarkUnknown(s, e, version);
    if CanMarkUnknown(s, e, version) {
      MarkUnknownKept(s, e, version);
    } else {
      NothingKept(s, MarkUnknown(e, version));
    }
  }

  lemma AfterRaise(s: State, e: int, code: ErrorCode)
    ensures After(s, Raise(e, code)) == if CanRaise(s, e) then DoRaise(s, e, code) else s
  {
  }

  lemma RaiseKeeps(s: State, e: int, code: ErrorCode)
    requires Inv(s)
    ensures Kept(s, After(s, Raise(e, code)), Raise(e, code))
  {
    AfterRaise(s, e, code);
    if CanRaise(s, e) {
      RaiseKept(s, e, code);
    } else {
      NothingKept(s, Raise(e, code));
    }
  }

  lemma HandlerTransitionKeeps(s: State, e: int, version: nat)
    requires Inv(s)
    ensures Kept(s, After(s, HandlerTransition(e, version)), HandlerTransition(e, version))
  {
    AfterHandlerTransition(s, e, version);
    if CanHandlerTransition(s, e, version) {
      HandlerTransitionKept(s, e, version);
    } else {
      NothingKept(s, HandlerTransition(e, version));
    }
  }

  lemma HandlerUnlinkKeeps(s: State, e: int)
    requires Inv(s)
    ensures Kept(s, After(s, HandlerUnlink(e)), HandlerUnlink(e))
  {
    AfterHandlerUnlink(s, e);
    if CanHandlerUnlink(s, e) {
      HandlerUnlinkKept(s, e);
    } else {
      NothingKept(s, HandlerUnlink(e));
    }
  }

  lemma HandlerClearKeeps(s: State, e: int)
    requires Inv(s)
    ensures Kept(s, After(s, HandlerClear(e)), HandlerClear(e))
  {
    assert After(s, HandlerClear(e)) == if CanHandlerClear(s, e) then DoHandlerClear(s, e) else s;
    if CanHandlerClear(s, e) {
      HandlerClearKept(s, e);
    } else {
      NothingKept(s, HandlerClear(e));
    }
  }

  lemma FinishKeeps(s: State, e: int)
    requires Inv(s)
    ensures Kept(s, After(s, Finish(e)), Finish(e))
  {
    AfterFinish(s, e);
    if CanFinish(s, e) {
      FinishKept(s, e);
    } else {
      NothingKept(s, Finish(e));
    }
  }

  lemma CrashKeeps(s: State, e: int)
    requires Inv(s)
    ensures Kept(s, After(s, Crash(e)), Crash(e))
  {
    AfterCrash(s, e);
    if CanCrash(s, e) {
      CrashKept(s, e);
    } else {
      NothingKept(s, Crash(e));
    }
  }

  predicate OutsideStep(step: Step) {
    step.Tick? || step.NewTask? || step.RowStep? || step.ForeignFile? || step.Sweep? || step.Start?
  }

  lemma OutsideStepKeeps(s: State, step: Step)
    requires Inv(s) && OutsideStep(step)
    ensures Kept(s, After(s, step), step)
  {
    match step
    case Tick(to) => TickKeeps(s, to);
    case NewTask(t, row, fact) => NewTaskKeeps(s, t, row, fact);
    case RowStep(t, op) => RowStepKeeps(s, t, op);
    case ForeignFile(name, inode, content) => ForeignFileKeeps(s, name, inode, content);
    case Sweep(name) => SweepKeeps(s, name);
    case Start(e, t, owner, generation) => StartKeeps(s, e, t, owner, generation);
  }

  predicate IntakeStep(step: Step) {
    step.Load? || step.Open? || step.CommitDownloading? || step.Receive? || step.WriteSome? || step.CommitChunk?
  }

  lemma IntakeStepKeeps(s: State, step: Step)
    requires Inv(s) && IntakeStep(step)
    ensures Kept(s, After(s, step), step)
  {
    match step
    case Load(e) => LoadKeeps(s, e);
    case Open(e, name, inode) => OpenKeeps(s, e, name, inode);
    case CommitDownloading(e, ttl, ending) => CommitDownloadingKeeps(s, e, ttl, ending);
    case Receive(e, ttl, chunk) => ReceiveKeeps(s, e, ttl, chunk);
    case WriteSome(e, count) => WriteSomeKeeps(s, e, count);
    case CommitChunk(e, ending) => CommitChunkKeeps(s, e, ending);
  }

  predicate DeliveryStep(step: Step) {
    step.CommitVerified? || step.LinkTarget? || step.UnlinkTemp? || step.CommitPublished? || step.CommitDbLinked?
        || step.CommitIndexed? || step.CommitSucceeded?
  }

  lemma DeliveryStepKeeps(s: State, step: Step)
    requires Inv(s) && DeliveryStep(step)
    ensures Kept(s, After(s, step), step)
  {
    match step
    case CommitVerified(e, ttl, ending) => CommitVerifiedKeeps(s, e, ttl, ending);
    case LinkTarget(e) => LinkTargetKeeps(s, e);
    case UnlinkTemp(e) => UnlinkTempKeeps(s, e);
    case CommitPublished(e, ttl, ending) => CommitPublishedKeeps(s, e, ttl, ending);
    case CommitDbLinked(e, ttl, ending) => CommitDbLinkedKeeps(s, e, ttl, ending);
    case CommitIndexed(e, ttl, ending) => CommitIndexedKeeps(s, e, ttl, ending);
    case CommitSucceeded(e, version, ending) => CommitSucceededKeeps(s, e, version, ending);
  }

  lemma OutcomeStepKeeps(s: State, step: Step)
    requires Inv(s) && !OutsideStep(step) && !IntakeStep(step) && !DeliveryStep(step)
    ensures Kept(s, After(s, step), step)
  {
    match step
    case MarkUnknown(e, version) => MarkUnknownKeeps(s, e, version);
    case Raise(e, code) => RaiseKeeps(s, e, code);
    case HandlerTransition(e, version) => HandlerTransitionKeeps(s, e, version);
    case HandlerUnlink(e) => HandlerUnlinkKeeps(s, e);
    case HandlerClear(e) => HandlerClearKeeps(s, e);
    case Finish(e) => FinishKeeps(s, e);
    case Crash(e) => CrashKeeps(s, e);
  }

  /** Every step of anybody keeps the invariant and everything that is permanent. */
  lemma StepKeeps(s: State, step: Step)
    requires Inv(s)
    ensures Kept(s, After(s, step), step)
  {
    if OutsideStep(step) {
      OutsideStepKeeps(s, step);
    } else if IntakeStep(step) {
      IntakeStepKeeps(s, step);
    } else if DeliveryStep(step) {
      DeliveryStepKeeps(s, step);
    } else {
      OutcomeStepKeeps(s, step);
    }
  }

  lemma PermanentTransitive(s: State, m: State, r: State)
    requires Permanent(s, m) && Permanent(m, r)
    ensures Permanent(s, r)
  {
  }

  /** The invariant holds in every state of every run, whatever interleaves, crashes or is taken over. */
  lemma {:induction false} RunKeeps(s: State, steps: seq<Step>)
    requires Inv(s)
    ensures Inv(Run(s, steps)) && Permanent(s, Run(s, steps))
    decreases |steps|
  {
    if steps != [] {
      StepKeeps(s, steps[0]);
      RunKeeps(After(s, steps[0]), steps[1..]);
      PermanentTransitive(s, After(s, steps[0]), Run(s, steps));
    }
  }
}
