/** The shapes that the steps of an executor have, and what a step of such a shape leaves alone. */
module ProtocolShapes {
  import opened Basics
  import opened Tasks
  import opened Transfer
  import opened Protocol
  import opened ProtocolInvariant
  import opened ProtocolFrames

  // ---------------------------------------------------------------- kept steps

  /** The steps that may change a stage, a fact or a link row. */
  predicate ChangesRecords(step: Step) {
    step.CommitDownloading? || step.CommitChunk? || step.CommitVerified? || step.CommitPublished?
        || step.CommitDbLinked?
    || step.CommitIndexed? || step.CommitSucceeded? || step.MarkUnknown? || step.HandlerClear?
  }

  ghost predicate InHandler(p: Phase) {
    p.Failing? || p.Settling? || p.Clearing? || p.Ended?
  }

  /** From which phase to which a step takes the executor that takes it. */
  ghost predicate PhaseMoves(step: Step, p: Phase, q: Phase) {
    match step
    case Load(_) => p.Begun? && q.Loaded?
    case Open(_, _, _) => p.Loaded? && (q.Opened? || q.Failing?)
    case CommitDownloading(_, _, _) => p.Opened? && (q.Streaming? || q.Failing?)
    case Receive(_, _, _) => p.Streaming? && q.Writing?
    case WriteSome(_, _) => p.Writing? && q.Writing?
    case CommitChunk(_, _) => p.Writing? && (q.Streaming? || q.Failing?)
    case CommitVerified(_, _, _) => p.Streaming? && (q.Checked? || q.Failing?)
    case LinkTarget(_) => p.Checked? && q.Linked?
    case UnlinkTemp(_) => p.Linked? && q.Unlinked?
    case CommitPublished(_, _, _) => p.Unlinked? && (q.Recorded? || q.Failing?)
    case CommitDbLinked(_, _, _) => p.Recorded? && (q.RowLinked? || q.Failing?)
    case CommitIndexed(_, _, _) => p.RowLinked? && (q.Indexed? || q.Failing?)
    case CommitSucceeded(_, _, _) => p.Indexed? && (q.Finished? || q.Failing?)
    case MarkUnknown(_, _) => p.Failing? && q.Failing?
    case Raise(_, _) => (!InHandler(p) && q.Ended?) || ((!InHandler(p) || p.Failing?) && q.Failing?)
    case HandlerTransition(_, _) => p.Failing? && q.Settling?
    case HandlerUnlink(_) => (p.Failing? || p.Settling?) && q.Clearing?
    case HandlerClear(_) => p.Clearing? && q.Ended?
    case Finish(_) => (InHandler(p) || p.Finished?) && q.Ended?
    case Crash(_) => !p.Ended? && q.Ended?
    case _ => false
  }

  /** The executor keeps who it is and what it has linked. */
  ghost predicate SameRun(y: Executor, x: Executor) {
    x.task == y.task && x.generation == y.generation && x.owner == y.owner && (y.published ==> x.published)
  }

  /** How a step changes the executor that takes it. */
  ghost predicate Moves(step: Step, x: Executor, y: Executor) {
    && PhaseMoves(step, x.phase, y.phase) && SameRun(x, y)
    && (!step.LinkTarget? ==> y.published == x.published)
    && (!step.Load? ==> y.expectedBytes == x.expectedBytes && y.mimeType == x.mimeType)
    && (!step.Load? && !step.Open? ==> y.temp == x.temp && y.offset == x.offset && x.digested <= y.digested)
  }

  /** A step changes the fact of its task only to record the file that the run transfers, or to forget the file. */
  ghost predicate FactFollows(s: State, r: State, e: int)
    requires Alive(s, e)
  {
    var x := s.executors[e];
    && x.task in r.facts
    && (r.facts[x.task] == FactOf(s, e) || r.facts[x.task].temp.None?
        || (Transferring(x.phase) && r.facts[x.task].temp == x.temp))
  }

  /** No inode has two names in the temporary directory. */
  ghost predicate Tidy(s: State) {
    forall m, n :: m in s.files.temp && n in s.files.temp && m != n ==> s.files.temp[m] != s.files.temp[n]
  }

  /** An inode that exists gets no new temporary name, and a visible one only from its temporary name. */
  ghost predicate NamesFollow(s: State, r: State) {
    && (forall name :: name in r.files.temp ==>
          (name in s.files.temp && r.files.temp[name] == s.files.temp[name]) || r.files.temp[name] !in s.files.data)
    && (forall name :: name in r.files.media ==>
          || (name in s.files.media && r.files.media[name] == s.files.media[name])
          || r.files.media[name] !in s.files.data
          || r.files.media[name] in s.files.temp.Values)
    && (Tidy(s) ==> Tidy(r))
  }

  /**
   A step of nobody: time goes on, new runs begin, the others stand still, and rows too, but for control operations.
   */
  ghost predicate OutsideFrame(s: State, r: State, step: Step) {
    && s.now <= r.now
    && (forall d :: d in s.executors ==> d in r.executors && r.executors[d] == s.executors[d])
    && (forall d :: d in r.executors && d !in s.executors ==> r.executors[d].phase.Begun?)
    && (forall t :: t in r.facts && t !in s.facts ==> r.facts[t].temp.None?)
    && (!step.RowStep? ==> forall t :: t in s.tasks ==> t in r.tasks && r.tasks[t] == s.tasks[t])
  }

  /** What every step keeps. */
  ghost predicate Kept(s: State, r: State, step: Step) {
    && Inv(r) && Permanent(s, r)
    && (!step.WriteSome? ==> SameData(s, r))
    && (!ChangesRecords(step) ==> SameRecords(s, r))
    && NamesFollow(s, r)
    && (!HasMover(step) ==> OutsideFrame(s, r, step))
    && (HasMover(step) && r != s ==>
          && Alive(s, step.e) && OnlyTouches(s, r, step.e) && FactFollows(s, r, step.e)
          && Moves(step, s.executors[step.e], r.executors[step.e]))
  }

  lemma GoodStepIsKept(s: State, r: State, step: Step)
    requires Inv(s) && HasMover(step) && Alive(s, step.e) && GoodStep(s, r, step.e)
    requires !step.WriteSome? ==> SameData(s, r)
    requires !ChangesRecords(step) ==> SameRecords(s, r)
    requires NamesFollow(s, r)
    requires Moves(step, s.executors[step.e], r.executors[step.e]) && FactFollows(s, r, step.e)
    ensures Kept(s, r, step)
  {
    GoodStepKeeps(s, r, step.e);
  }

  lemma LocalOf(s: State, e: int)
    requires Inv(s) && e in s.executors
    ensures Local(s, e)
  {
    assert ExecutorOk(s, e);
    assert TaskOk(s, s.executors[e].task);
  }

  // ---------------------------------------------------------------- only the executor moves

  ghost function OnlyMoved(s: State, e: int, x: Executor): State {
    s.(executors := s.executors[e := x])
  }

  lemma OnlyMovedFrame(s: State, e: int, x: Executor)
    requires Structure(s) && Alive(s, e) && s.fence != Some(e) && SameRun(s.executors[e], x)
    ensures OnlyTouches(s, OnlyMoved(s, e, x), e)
  {
  }

  lemma OnlyMovedPermanent(s: State, e: int, x: Executor)
    requires Structure(s) && Alive(s, e) && s.fence != Some(e) && SameRun(s.executors[e], x)
    ensures Permanent(s, OnlyMoved(s, e, x)) && Structure(OnlyMoved(s, e, x))
    ensures SameData(s, OnlyMoved(s, e, x)) && SameRecords(s, OnlyMoved(s, e, x)) && NamesFollow(s, OnlyMoved(s, e, x))
  {
  }

  lemma OnlyMovedTask(s: State, e: int, x: Executor)
    requires Local(s, e) && s.fence != Some(e) && SameRun(s.executors[e], x) && Structure(OnlyMoved(s, e, x))
    ensures TaskOk(OnlyMoved(s, e, x), x.task)
  {
  }

  lemma OnlyMovedIsKept(s: State, e: int, x: Executor, step: Step)
    requires Inv(s) && e in s.executors && s.fence != Some(e) && SameRun(s.executors[e], x)
    requires HasMover(step) && step.e == e && !step.LinkTarget? && Moves(step, s.executors[e], x)
    requires Local(s, e) ==>
               && ExecutorOk(OnlyMoved(s, e, x), e)
               && (Current(OnlyMoved(s, e, x), e) ==> HolderOk(OnlyMoved(s, e, x), e))
    ensures Kept(s, OnlyMoved(s, e, x), step)
  {
    LocalOf(s, e);
    OnlyMovedFrame(s, e, x);
    OnlyMovedPermanent(s, e, x);
    OnlyMovedTask(s, e, x);
    GoodStepIsKept(s, OnlyMoved(s, e, x), step);
  }

  // ---------------------------------------------------------------- a transaction on the own records

  /** Row, fact, link rows and seals after a transaction, and the executor after it. */
  datatype Rewrite = Rewrite(row: TaskRow, fact: DownloadFact, links: map<int, LinkRow>, sealed: set<int>, x: Executor)

  ghost function Rewritten(s: State, e: int, w: Rewrite): State {
    s.(tasks := s.tasks[w.x.task := w.row], facts := s.facts[w.x.task := w.fact], links := w.links, sealed := w.sealed,
       executors := s.executors[e := w.x])
  }

  /** At most the own link row is added, and the own file sealed. */
  ghost predicate FairAdditions(s: State, e: int, w: Rewrite)
    requires Alive(s, e)
  {
    var y := s.executors[e];
    && (forall t :: t in s.links ==> t in w.links && w.links[t] == s.links[t])
    && (forall t :: t in w.links && t != y.task ==> t in s.links)
    && s.sealed <= w.sealed
    && (forall i :: i in w.sealed && i !in s.sealed ==>
        Current(s, e) && y.temp.Some? && i == y.temp.value.inode && i in s.maker)
  }

  /** A transaction under no foreign fence that keeps identities; one without the lease changes little. */
  ghost predicate Fair(s: State, e: int, w: Rewrite)
    requires Alive(s, e)
  {
    && s.fence.None? && SameRun(s.executors[e], w.x)
    && RowGrows(RowOf(s, e), w.row) && w.row.leaseGeneration == RowOf(s, e).leaseGeneration
    && SameLimits(FactOf(s, e), w.fact) && FactFollows(s, Rewritten(s, e, w), e)
    && FairAdditions(s, e, w)
    && (!Current(s, e) ==>
          && SameContentFacts(RowOf(s, e), w.row)
          && (w.row.stage == RowOf(s, e).stage || FinalStage(w.row.stage))
          && (w.fact == FactOf(s, e) || w.fact == FactOf(s, e).(temp := None, resumeOffset := 0))
          && (w.row.state == Running ==> w.row == RowOf(s, e)))
  }

  lemma RewrittenStructure(s: State, e: int, w: Rewrite)
    requires Structure(s) && Alive(s, e) && Fair(s, e, w)
    ensures Structure(Rewritten(s, e, w))
  {
    forall t | t in w.links
      ensures t in s.tasks
    {
      assert t in s.links ==> t in s.tasks;
    }
    forall i | i in w.sealed
      ensures i in s.maker
    {
      assert i in s.sealed ==> i in s.maker;
    }
    assert s.tasks[w.x.task := w.row].Keys == s.tasks.Keys && s.facts[w.x.task := w.fact].Keys == s.facts.Keys;
  }

  lemma RewrittenRows(s: State, e: int, w: Rewrite)
    requires Structure(s) && Alive(s, e) && Fair(s, e, w)
    ensures PermanentRows(s, Rewritten(s, e, w))
  {
  }

  lemma RewrittenFiles(s: State, e: int, w: Rewrite)
    requires Structure(s) && Alive(s, e) && Fair(s, e, w)
    ensures PermanentFiles(s, Rewritten(s, e, w)) && PermanentRuns(s, Rewritten(s, e, w))
    ensures SameData(s, Rewritten(s, e, w)) && NamesFollow(s, Rewritten(s, e, w))
  {
  }

  lemma RewrittenFrame(s: State, e: int, w: Rewrite)
    requires Structure(s) && Alive(s, e) && Fair(s, e, w)
    ensures OnlyTouches(s, Rewritten(s, e, w), e)
  {
  }

  /** The part of the invariant that a transaction has to establish anew. */
  ghost predicate GoodRewrite(s: State, e: int, w: Rewrite)
    requires Alive(s, e) && w.x.task == s.executors[e].task
  {
    var r := Rewritten(s, e, w);
    Structure(r) ==> ExecutorOk(r, e) && (Current(r, e) ==> HolderOk(r, e)) && TaskOk(r, w.x.task)
  }

  lemma RewrittenIsGood(s: State, e: int, w: Rewrite)
    requires Inv(s) && Alive(s, e) && Fair(s, e, w) && GoodRewrite(s, e, w) && w.x.published == s.executors[e].published
    ensures GoodStep(s, Rewritten(s, e, w), e)
  {
    RewrittenStructure(s, e, w);
    RewrittenRows(s, e, w);
    RewrittenFiles(s, e, w);
    RewrittenFrame(s, e, w);
  }

  lemma RewrittenIsKept(s: State, e: int, w: Rewrite, step: Step)
    requires Inv(s) && Alive(s, e) && Fair(s, e, w) && GoodRewrite(s, e, w)
    requires HasMover(step) && step.e == e && !step.LinkTarget? && Moves(step, s.executors[e], w.x)
    requires !ChangesRecords(step) ==> w.links == s.links && w.fact == FactOf(s, e) && w.row.stage == RowOf(s, e).stage
    ensures Kept(s, Rewritten(s, e, w), step)
  {
    RewrittenIsGood(s, e, w);
    RewrittenFiles(s, e, w);
    GoodStepIsKept(s, Rewritten(s, e, w), step);
  }

  // ---------------------------------------------------------------- the environment

  /** A step of the environment: no executor moves, no file loses its content. */
  ghost predicate Environmental(s: State, r: State)
    requires Structure(s)
  {
    && Structure(r) && Permanent(s, r)
    && r.executors == s.executors && r.fence == s.fence && r.sealed == s.sealed && r.links == s.links
    && (forall i :: i in s.files.data ==> r.files.data[i] == s.files.data[i])
    && (forall t :: t in s.tasks ==> r.facts[t] == s.facts[t])
    && (s.fence.Some? ==> forall t :: t in s.tasks ==> r.tasks[t] == s.tasks[t])
    && (forall t :: t in s.tasks ==> s.tasks[t].leaseGeneration < r.tasks[t].leaseGeneration || HolderFrame(s, r, t))
  }

  lemma EnvironmentExecutor(s: State, r: State, d: int)
    requires Structure(s) && Environmental(s, r) && Local(s, d)
    ensures ExecutorOk(r, d) && (Current(r, d) ==> HolderOk(r, d))
  {
  }

  lemma EnvironmentKeeps(s: State, r: State)
    requires Inv(s) && Environmental(s, r)
    requires forall t :: t in r.tasks ==> (t in s.tasks && r.tasks[t] == s.tasks[t]) || TaskOk(r, t)
    ensures Inv(r)
  {
    forall d | d in r.executors
      ensures ExecutorOk(r, d) && (Current(r, d) ==> HolderOk(r, d))
    {
      assert ExecutorOk(s, d);
      EnvironmentExecutor(s, r, d);
    }
    forall t | t in r.tasks
      ensures TaskOk(r, t)
    {
      if t in s.tasks && r.tasks[t] == s.tasks[t] {
        assert TaskOk(s, t);
        TaskKept(s, r, t);
      }
    }
    assert LinkersDistinct(r) by {
      forall a, b | a != b && Alive(r, a) && Alive(r, b) && r.executors[a].published && r.executors[b].published
        ensures Target(r, a) != Target(r, b)
      {
        assert ExecutorOk(s, a) && ExecutorOk(s, b);
      }
    }
  }
}
