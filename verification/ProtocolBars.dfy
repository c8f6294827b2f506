/** What keeps a run from ever publishing its file, whatever it and everybody else still do. */
module ProtocolBars {
  import opened Basics
  import opened Tasks
  import opened Transfer
  import opened Protocol
  import opened ProtocolInvariant
  import opened ProtocolFrames
  import opened ProtocolShapes
  import opened ProtocolSteps
  import opened ProtocolTheorems
  import opened ProtocolLimits

  // ---------------------------------------------------------------- names and files

  lemma {:induction false} RunTidy(s: State, steps: seq<Step>)
    requires Inv(s) && Tidy(s)
    ensures Tidy(Run(s, steps))
    decreases |steps|
  {
    if steps != [] {
      StepKeeps(s, steps[0]);
      RunTidy(After(s, steps[0]), steps[1..]);
    }
  }

  lemma ReachableTidy(s: State)
    requires Reachable(s)
    ensures Tidy(s)
  {
    var s0, steps :| Initial(s0) && s == Run(s0, steps);
    InitialInv(s0);
    RunTidy(s0, steps);
  }

  /** The recorded file has lost its name, is visible as media, or is longer than the offset recorded for it. */
  ghost predicate Damaged(s: State, seen: TempRef, offset: nat) {
    && seen.inode in s.files.data
    && (seen.name !in s.files.temp || s.files.temp[seen.name] != seen.inode || Visible(s, seen.inode)
        || offset < |s.files.data[seen.inode]|)
  }

  lemma DamagedIsRefused(s: State, seen: TempRef, offset: nat)
    requires Damaged(s, seen, offset)
    ensures ResumeRefusal(s, seen, offset).Some?
  {
    if Visible(s, seen.inode) {
      VisibleIsNotResumed(s, seen, offset);
    }
  }

  /** Where no inode has two temporary names, damage is the only reason to refuse a recorded file. */
  lemma RefusedIsDamaged(s: State, seen: TempRef, offset: nat)
    requires Tidy(s) && ResumeRefusal(s, seen, offset).Some?
    requires seen.inode in s.files.data && offset <= |s.files.data[seen.inode]|
    ensures Damaged(s, seen, offset)
  {
    var i := seen.inode;
    if seen.name in s.files.temp && s.files.temp[seen.name] == i && LinkCount(s.files, i) != 1 {
      assert NamesOf(s.files.temp, i) == {seen.name};
      var name :| name in NamesOf(s.files.media, i);
    }
  }

  lemma DamagedStays(s: State, r: State, seen: TempRef, offset: nat)
    requires Permanent(s, r) && NamesFollow(s, r) && Damaged(s, seen, offset)
    ensures Damaged(r, seen, offset)
  {
    if Visible(s, seen.inode) {
      VisibleStays(s, r, seen.inode);
    }
  }

  /** The inode has no name left. */
  ghost predicate Nameless(s: State, i: int) {
    && (forall name :: name in s.files.temp ==> s.files.temp[name] != i)
    && (forall name :: name in s.files.media ==> s.files.media[name] != i)
  }

  lemma NamelessStays(s: State, r: State, i: int)
    requires NamesFollow(s, r) && Nameless(s, i) && i in s.files.data
    ensures Nameless(r, i)
  {
  }

  lemma NamelessHasNoLinks(s: State, i: int)
    requires Nameless(s, i)
    ensures LinkCount(s.files, i) == 0
  {
    assert NamesOf(s.files.temp, i) == {} && NamesOf(s.files.media, i) == {};
  }

  // ---------------------------------------------------------------- bars

  /** What a run that has read its row and fact will demand of the content. */
  function DemandOf(x: Executor, fact: DownloadFact): Demand {
    Demand(x.mimeType, x.expectedBytes, fact.expectedSha256, fact.maxBytes)
  }

  /** A longer content that begins with what there is and meets the demand. */
  ghost predicate Completes(s: State, d: Demand, from: Bytes, c: Bytes) {
    from < c && Acceptable(d, c, Sniffed(s, c))
  }

  datatype Bar = TargetTaken | LeaseGone | FileDamaged | FileNameless | Incompletable(from: Bytes)

  ghost predicate Holds(s: State, d: int, bar: Bar)
    requires Alive(s, d)
  {
    var x := s.executors[d];
    match bar
    case TargetTaken => Target(s, d) in s.files.media && (x.phase.Loaded? || Transferring(x.phase) || x.phase.Checked?)
    case LeaseGone =>
      && (x.phase.Loaded? || x.phase.Opened? || x.phase.Streaming?)
      && !HoldsLease(RowOf(s, d), x.owner, x.generation, s.now)
    case FileDamaged =>
      x.phase.Loaded? && x.phase.seen.temp.Some? && Damaged(s, x.phase.seen.temp.value, x.phase.seen.resumeOffset)
    case FileNameless =>
      Transferring(x.phase) && x.temp.Some? && Inode(s, d) in s.files.data && Nameless(s, Inode(s, d))
    case Incompletable(from) =>
      && (forall c :: !Completes(s, DemandOf(x, FactOf(s, d)), from, c))
      && (if x.phase.Loaded?
          then && x.phase.seen.temp.Some? && x.phase.seen.resumeOffset == |from|
               && x.phase.seen.temp.value.inode in s.files.data && from <= s.files.data[x.phase.seen.temp.value.inode]
          else Transferring(x.phase) && x.offset == |from| && from <= x.digested)
  }

  /** The run has not published, and has failed or is held back by the bar. */
  ghost predicate Barred(s: State, d: int, bar: Bar) {
    Alive(s, d) && !s.executors[d].published && (InHandler(s.executors[d].phase) || Holds(s, d, bar))
  }

  // ---------------------------------------------------------------- others cannot lift a bar

  lemma LeaseStaysGoneOutside(s: State, r: State, step: Step, d: int)
    requires !HasMover(step) && !step.RowStep? && OutsideFrame(s, r, step)
    requires Alive(s, d) && Alive(r, d) && r.executors[d] == s.executors[d]
    requires !HoldsLease(RowOf(s, d), s.executors[d].owner, s.executors[d].generation, s.now)
    ensures !HoldsLease(RowOf(r, d), s.executors[d].owner, s.executors[d].generation, r.now)
  {
  }

  lemma LeaseStaysGoneAtRowStep(s: State, t: int, op: RowOp, d: int)
    requires CanRowStep(s, t, op) && Alive(s, d) && Sound(s.tasks[t])
             && s.executors[d].generation <= RowOf(s, d).leaseGeneration
    requires !HoldsLease(RowOf(s, d), s.executors[d].owner, s.executors[d].generation, s.now)
    ensures var r := DoRowStep(s, t, op);
            Alive(r, d) && !HoldsLease(RowOf(r, d), s.executors[d].owner, s.executors[d].generation, r.now)
  {
    if t == s.executors[d].task {
      RowOpEndsLease(s.tasks[t], op, s.now, s.executors[d].owner, s.executors[d].generation);
    }
  }

  lemma LeaseStaysGoneByMover(s: State, r: State, e: int, d: int)
    requires OwnersDistinct(s) && Alive(s, e) && OnlyTouches(s, r, e) && d != e
    requires Alive(s, d) && Alive(r, d) && r.executors[d] == s.executors[d]
    requires !HoldsLease(RowOf(s, d), s.executors[d].owner, s.executors[d].generation, s.now)
    ensures !HoldsLease(RowOf(r, d), s.executors[d].owner, s.executors[d].generation, r.now)
  {
  }

  lemma LeaseStaysGone(s: State, step: Step, d: int)
    requires Inv(s) && Alive(s, d) && (HasMover(step) ==> step.e != d)
    requires !HoldsLease(RowOf(s, d), s.executors[d].owner, s.executors[d].generation, s.now)
    ensures var r := After(s, step);
            Alive(r, d) && !HoldsLease(RowOf(r, d), s.executors[d].owner, s.executors[d].generation, r.now)
  {
    var r := After(s, step);
    StepKeeps(s, step);
    OthersStandStill(s, r, step, d);
    if r != s {
      if step.RowStep? {
        assert ExecutorOk(s, d) && TaskOk(s, step.task);
        LeaseStaysGoneAtRowStep(s, step.task, step.op, d);
      } else if !HasMover(step) {
        LeaseStaysGoneOutside(s, r, step, d);
      } else {
        LeaseStaysGoneByMover(s, r, step.e, d);
      }
    }
  }

  /** Another executor's step leaves this one where it is. */
  lemma OthersStandStill(s: State, r: State, step: Step, d: int)
    requires Kept(s, r, step) && d in s.executors && (HasMover(step) ==> step.e != d)
    ensures d in r.executors && r.executors[d] == s.executors[d]
  {
  }

  lemma OthersKeepFileBar(s: State, r: State, d: int, bar: Bar)
    requires Alive(s, d) && Alive(r, d) && Permanent(s, r) && NamesFollow(s, r) && r.executors[d] == s.executors[d]
    requires !bar.LeaseGone? && Holds(s, d, bar)
    ensures Holds(r, d, bar)
  {
    match bar
    case TargetTaken =>
    case FileDamaged =>
      DamagedStays(s, r, s.executors[d].phase.seen.temp.value, s.executors[d].phase.seen.resumeOffset);
    case FileNameless => NamelessStays(s, r, Inode(s, d));
    case Incompletable(from) => DemandStays(s, r, d, from);
  }

  lemma DemandStays(s: State, r: State, d: int, from: Bytes)
    requires Alive(s, d) && Alive(r, d) && Permanent(s, r)
    requires r.executors[d].mimeType == s.executors[d].mimeType
             && r.executors[d].expectedBytes == s.executors[d].expectedBytes
    ensures DemandOf(r.executors[d], FactOf(r, d)) == DemandOf(s.executors[d], FactOf(s, d))
    ensures forall c :: Completes(r, DemandOf(r.executors[d], FactOf(r, d)), from, c)
                        ==> Completes(s, DemandOf(s.executors[d], FactOf(s, d)), from, c)
  {
  }

  lemma OthersKeepBar(s: State, step: Step, d: int, bar: Bar)
    requires Inv(s) && Barred(s, d, bar) && (HasMover(step) ==> step.e != d)
    ensures Barred(After(s, step), d, bar)
  {
    var r := After(s, step);
    StepKeeps(s, step);
    OthersStandStill(s, r, step, d);
    if !InHandler(s.executors[d].phase) {
      if bar.LeaseGone? {
        LeaseStaysGone(s, step, d);
      } else {
        OthersKeepFileBar(s, r, d, bar);
      }
    }
  }

  // ---------------------------------------------------------------- nor does the run itself

  lemma LeaseGoneStops(s: State, d: int, ttl: nat, chunk: Bytes)
    requires Alive(s, d) && Holds(s, d, LeaseGone)
    ensures !CanCommitDownloading(s, d, ttl) && !CanReceive(s, d, ttl, chunk) && !CanCommitVerified(s, d, ttl)
  {
  }

  lemma TargetTakenStops(s: State, d: int)
    requires Alive(s, d) && Holds(s, d, TargetTaken)
    ensures !CanLinkTarget(s, d)
  {
  }

  lemma NamelessStops(s: State, d: int, ttl: nat)
    requires Alive(s, d) && Holds(s, d, FileNameless)
    ensures !CanCommitVerified(s, d, ttl)
  {
    NamelessHasNoLinks(s, Inode(s, d));
  }

  lemma IncompletableStops(s: State, d: int, ttl: nat, from: Bytes)
    requires Alive(s, d) && Holds(s, d, Incompletable(from))
    ensures !CanCommitVerified(s, d, ttl)
  {
    if CanCommitVerified(s, d, ttl) {
      assert Completes(s, DemandOf(s.executors[d], FactOf(s, d)), from, s.executors[d].digested);
    }
  }

  /** The steps that a bar takes from a run. */
  ghost predicate Blocked(bar: Bar, step: Step) {
    match bar
    case TargetTaken => step.LinkTarget?
    case LeaseGone => step.CommitDownloading? || step.Receive? || step.CommitVerified?
    case FileDamaged => false
    case FileNameless => step.CommitVerified?
    case Incompletable(_) => step.CommitVerified?
  }

  lemma BlockedDoesNothing(s: State, step: Step, d: int, bar: Bar)
    requires Alive(s, d) && Holds(s, d, bar) && Blocked(bar, step) && HasMover(step) && step.e == d
    ensures After(s, step) == s
  {
    match bar
    case TargetTaken => TargetTakenStops(s, d);
    case LeaseGone => LeaseGoneStops(s, d, step.ttl, if step.Receive? then step.chunk else []);
    case FileNameless => NamelessStops(s, d, step.ttl);
    case Incompletable(from) => IncompletableStops(s, d, step.ttl, from);
  }

  lemma OpenKeepsBar(s: State, d: int, name: string, inode: int, bar: Bar)
    requires CanOpen(s, d, name, inode) && Barred(s, d, bar)
    ensures Alive(DoOpen(s, d, name, inode), d)
    ensures Barred(DoOpen(s, d, name, inode), d, bar)
  {
    var seen := s.executors[d].phase.seen;
    if bar.FileDamaged? {
      DamagedIsRefused(s, seen.temp.value, seen.resumeOffset);
    }
    if bar.Incompletable? {
      var r := DoOpen(s, d, name, inode);
      forall c
        ensures !Completes(r, DemandOf(r.executors[d], FactOf(r, d)), bar.from, c)
      {
        assert !Completes(s, DemandOf(s.executors[d], FactOf(s, d)), bar.from, c);
      }
    }
  }

  /** A move that is not taken from the run leads on under the same bar, or into the handler. */
  lemma MoveKeepsBar(s: State, r: State, step: Step, d: int, bar: Bar)
    requires Alive(s, d) && Alive(r, d) && Permanent(s, r) && NamesFollow(s, r)
    requires HasMover(step) && !step.Open? && Moves(step, s.executors[d], r.executors[d])
    requires Holds(s, d, bar) && !Blocked(bar, step) && !s.executors[d].published
    ensures InHandler(r.executors[d].phase) || Holds(r, d, bar)
  {
    match bar
    case TargetTaken =>
    case LeaseGone =>
    case FileDamaged =>
    case FileNameless => NamelessStays(s, r, Inode(s, d));
    case Incompletable(from) => MoveStaysIncompletable(s, r, step, d, from);
  }

  lemma MoveStaysIncompletable(s: State, r: State, step: Step, d: int, from: Bytes)
    requires Alive(s, d) && Alive(r, d) && Permanent(s, r)
    requires HasMover(step) && !step.Open? && Moves(step, s.executors[d], r.executors[d])
    requires Holds(s, d, Incompletable(from)) && !step.CommitVerified?
    ensures InHandler(r.executors[d].phase) || Holds(r, d, Incompletable(from))
  {
    DemandStays(s, r, d, from);
  }

  lemma FailedStaysFailed(step: Step, x: Executor, y: Executor)
    requires Moves(step, x, y) && InHandler(x.phase)
    ensures InHandler(y.phase) && y.published == x.published
  {
  }

  lemma BarredDoesNotLink(step: Step, s: State, d: int, bar: Bar, y: Executor)
    requires Barred(s, d, bar) && Moves(step, s.executors[d], y)
    requires !InHandler(s.executors[d].phase) ==> !Blocked(bar, step)
    ensures !y.published
  {
  }

  lemma OwnStepKeepsBar(s: State, step: Step, d: int, bar: Bar)
    requires Inv(s) && Barred(s, d, bar) && HasMover(step) && step.e == d
    ensures Barred(After(s, step), d, bar)
  {
    var r := After(s, step);
    StepKeeps(s, step);
    if r != s {
      if InHandler(s.executors[d].phase) {
        FailedStaysFailed(step, s.executors[d], r.executors[d]);
      } else if Blocked(bar, step) {
        BlockedDoesNothing(s, step, d, bar);
      } else {
        BarredDoesNotLink(step, s, d, bar, r.executors[d]);
        if !step.Open? {
          MoveKeepsBar(s, r, step, d, bar);
        } else if CanOpen(s, d, step.name, step.inode) {
          OpenKeepsBar(s, d, step.name, step.inode, bar);
        }
      }
    }
  }

  /** A barred run never publishes. */
  lemma {:induction false} BarredForever(s: State, steps: seq<Step>, d: int, bar: Bar)
    requires Inv(s) && Barred(s, d, bar)
    ensures Barred(Run(s, steps), d, bar)
    decreases |steps|
  {
    if steps != [] {
      StepKeeps(s, steps[0]);
      if !HasMover(steps[0]) || steps[0].e != d {
        OthersKeepBar(s, steps[0], d, bar);
      } else {
        OwnStepKeepsBar(s, steps[0], d, bar);
      }
      BarredForever(After(s, steps[0]), steps[1..], d, bar);
    }
  }
}
