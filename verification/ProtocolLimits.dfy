/** Where the download protocol gives less than one might expect, and exactly when. */
module ProtocolLimits {
  import opened Basics
  import opened Tasks
  import opened Transfer
  import opened Protocol
  import opened ProtocolInvariant
  import opened ProtocolFrames
  import opened ProtocolShapes
  import opened ProtocolSteps
  import opened ProtocolTheorems

  // ---------------------------------------------------------------- linked content

  /** The inode is visible in the media directory. */
  ghost predicate Visible(s: State, i: int) {
    exists name :: name in s.files.media && s.files.media[name] == i
  }

  /** The executor has the inode open and its lease or its open transaction still lets it append. */
  ghost predicate MayAppend(s: State, d: int, i: int) {
    && Alive(s, d) && Current(s, d)
    && var x := s.executors[d];
       && Transferring(x.phase) && x.temp.Some? && x.temp.value.inode == i
       && if x.phase.Writing?
          then x.phase.written < |x.phase.chunk|
               || (s.now < x.phase.until && |x.digested| + |x.phase.chunk| < FactOf(s, d).maxBytes)
          else HoldsLease(RowOf(s, d), x.owner, x.generation, s.now) && |x.digested| < FactOf(s, d).maxBytes
  }

  /** A temporary file that is also visible as media is never opened again. */
  lemma VisibleIsNotResumed(s: State, seen: TempRef, offset: nat)
    requires Visible(s, seen.inode)
    ensures ResumeRefusal(s, seen, offset) == Some(StorageUnsafe)
  {
    if seen.name in s.files.temp && s.files.temp[seen.name] == seen.inode {
      var name :| name in s.files.media && s.files.media[name] == seen.inode;
      assert seen.name in NamesOf(s.files.temp, seen.inode);
      assert name in NamesOf(s.files.media, seen.inode);
    }
  }

  lemma VisibleStays(s: State, r: State, i: int)
    requires Visible(s, i) && Permanent(s, r)
    ensures Visible(r, i)
  {
    var name :| name in s.files.media && s.files.media[name] == i;
    assert name in r.files.media && r.files.media[name] == i;
  }

  /** Another executor's step gives nobody the means to append. */
  lemma OtherStepEnablesNoAppender(s: State, r: State, e: int, d: int, i: int)
    requires Structure(s) && OwnersDistinct(s) && Alive(s, e) && OnlyTouches(s, r, e) && Permanent(s, r)
    requires d in s.executors && ExecutorOk(s, d) && d != e
    requires MayAppend(r, d, i)
    ensures MayAppend(s, d, i)
  {
  }

  /** The steps after which an executor is transferring. */
  predicate TransferStep(step: Step) {
    step.Open? || step.CommitDownloading? || step.Receive? || step.WriteSome? || step.CommitChunk?
  }

  /** What keeps every run from opening an inode and appending to it. */
  datatype Halt = IsVisible | IsUnnamed | IsFull | IsTerminal

  ghost predicate Halted(s: State, i: int, why: Halt) {
    && i in s.files.data
    && match why
       case IsVisible => Visible(s, i)
       case IsUnnamed => forall name :: name in s.files.temp ==> s.files.temp[name] != i
       case IsFull => i in s.maker && s.maker[i] in s.facts && s.facts[s.maker[i]].maxBytes <= |s.files.data[i]|
       case IsTerminal => i in s.maker && s.maker[i] in s.tasks && Terminal(s.tasks[s.maker[i]].state)
  }

  lemma HaltedStays(s: State, r: State, i: int, why: Halt)
    requires Permanent(s, r) && NamesFollow(s, r) && Halted(s, i, why)
    ensures Halted(r, i, why)
  {
    if why.IsVisible? {
      VisibleStays(s, r, i);
    }
  }

  lemma OwnOpen(s: State, d: int, name: string, inode: int, i: int, why: Halt)
    requires Local(s, d) && Halted(s, i, why) && CanOpen(s, d, name, inode)
    ensures !MayAppend(DoOpen(s, d, name, inode), d, i)
  {
    var seen := s.executors[d].phase.seen;
    if why.IsVisible? && seen.temp.Some? && seen.temp.value.inode == i {
      VisibleIsNotResumed(s, seen.temp.value, seen.resumeOffset);
    }
  }

  lemma OwnCommitDownloading(s: State, d: int, ttl: nat, ending: Ending, i: int)
    requires Local(s, d) && CanCommitDownloading(s, d, ttl) && MayAppend(DoCommitDownloading(s, d, ttl, ending), d, i)
    ensures MayAppend(s, d, i)
  {
  }

  lemma OwnReceive(s: State, d: int, ttl: nat, chunk: Bytes, i: int)
    requires Local(s, d) && CanReceive(s, d, ttl, chunk) && MayAppend(DoReceive(s, d, ttl, chunk), d, i)
    ensures MayAppend(s, d, i)
  {
  }

  lemma OwnWriteSome(s: State, d: int, count: nat, i: int)
    requires Local(s, d) && CanWriteSome(s, d, count) && MayAppend(DoWriteSome(s, d, count), d, i)
    ensures MayAppend(s, d, i)
  {
  }

  lemma OwnCommitChunk(s: State, d: int, ending: Ending, i: int)
    requires Local(s, d) && CanCommitChunk(s, d) && MayAppend(DoCommitChunk(s, d, ending), d, i)
    ensures MayAppend(s, d, i)
  {
  }

  lemma OwnTransferStep(s: State, step: Step, d: int, i: int, why: Halt)
    requires Local(s, d) && Halted(s, i, why) && HasMover(step) && step.e == d && TransferStep(step)
    requires MayAppend(After(s, step), d, i)
    ensures MayAppend(s, d, i)
  {
    match step
    case Open(_, name, inode) => if CanOpen(s, d, name, inode) { OwnOpen(s, d, name, inode, i, why); }
    case CommitDownloading(_, ttl, ending) =>
      if CanCommitDownloading(s, d, ttl) { OwnCommitDownloading(s, d, ttl, ending, i); }
    case Receive(_, ttl, chunk) => if CanReceive(s, d, ttl, chunk) { OwnReceive(s, d, ttl, chunk, i); }
    case WriteSome(_, count) => if CanWriteSome(s, d, count) { OwnWriteSome(s, d, count, i); }
    case CommitChunk(_, ending) => if CanCommitChunk(s, d) { OwnCommitChunk(s, d, ending, i); }
  }

  lemma RowStepEnablesNoAppender(s: State, t: int, op: RowOp, d: int, i: int)
    requires Inv(s) && CanRowStep(s, t, op) && MayAppend(DoRowStep(s, t, op), d, i)
    ensures MayAppend(s, d, i)
  {
    assert ExecutorOk(s, d) && TaskOk(s, t);
    RowOpKeeps(s.tasks[t], op, s.now);
    if t == s.executors[d].task {
      RowOpEndsLease(s.tasks[t], op, s.now, s.executors[d].owner, s.executors[d].generation);
    }
  }

  /** Time, new tasks, files and runs give nobody the means to append either. */
  lemma OutsideStepEnablesNoAppender(s: State, r: State, step: Step, d: int, i: int)
    requires Inv(s) && !HasMover(step) && !step.RowStep? && Kept(s, r, step)
    requires MayAppend(r, d, i)
    ensures MayAppend(s, d, i)
  {
    assert d in s.executors && ExecutorOk(s, d);
  }

  lemma TransferringMove(step: Step, x: Executor, y: Executor)
    requires Moves(step, x, y) && Transferring(y.phase)
    ensures TransferStep(step)
  {
  }

  lemma StepEnablesNoAppender(s: State, r: State, step: Step, d: int, i: int)
    requires Inv(s) && Kept(s, r, step) && r != s && !step.RowStep? && (HasMover(step) ==> d != step.e)
    requires MayAppend(r, d, i)
    ensures MayAppend(s, d, i)
  {
    if HasMover(step) {
      assert d in s.executors && ExecutorOk(s, d);
      OtherStepEnablesNoAppender(s, r, step.e, d, i);
    } else {
      OutsideStepEnablesNoAppender(s, r, step, d, i);
    }
  }

  /** Who may append to a halted inode after a step could already append to it before. */
  lemma AppenderWasThere(s: State, step: Step, d: int, i: int, why: Halt)
    requires Inv(s) && Halted(s, i, why) && MayAppend(After(s, step), d, i)
    ensures MayAppend(s, d, i)
  {
    var r := After(s, step);
    StepKeeps(s, step);
    if r != s {
      if step.RowStep? {
        RowStepEnablesNoAppender(s, step.task, step.op, d, i);
      } else if HasMover(step) && d == step.e {
        LocalOf(s, d);
        TransferringMove(step, s.executors[d], r.executors[d]);
        OwnTransferStep(s, step, d, i, why);
      } else {
        StepEnablesNoAppender(s, r, step, d, i);
      }
    }
  }

  lemma {:induction false} NoAppenderNoChange(s: State, steps: seq<Step>, i: int, why: Halt)
    requires Inv(s) && Halted(s, i, why) && forall d :: !MayAppend(s, d, i)
    ensures i in Run(s, steps).files.data && Run(s, steps).files.data[i] == s.files.data[i]
    decreases |steps|
  {
    if steps != [] {
      var r := After(s, steps[0]);
      StepKeeps(s, steps[0]);
      HaltedStays(s, r, i, why);
      forall d
        ensures !MayAppend(r, d, i)
      {
        if MayAppend(r, d, i) {
          AppenderWasThere(s, steps[0], d, i, why);
        }
      }
      if r.files.data[i] != s.files.data[i] {
        WriterMayAppend(s, steps[0], i);
      }
      NoAppenderNoChange(r, steps[1..], i, why);
    }
  }

  lemma WriterMayAppend(s: State, step: Step, i: int)
    requires Inv(s) && i in s.files.data && i in After(s, step).files.data
    requires After(s, step).files.data[i] != s.files.data[i]
    ensures exists d :: MayAppend(s, d, i)
  {
    StepKeeps(s, step);
    assert step.WriteSome? && CanWriteSome(s, step.e, step.count);
    assert ExecutorOk(s, step.e);
    assert MayAppend(s, step.e, i);
  }

  lemma RunOne(s: State, step: Step, steps: seq<Step>)
    ensures Run(s, [step] + steps) == Run(After(s, step), steps)
  {
    assert ([step] + steps)[1..] == steps;
  }

  lemma RunReceive(s: State, d: int, ttl: nat, chunk: Bytes, steps: seq<Step>)
    requires CanReceive(s, d, ttl, chunk)
    ensures Run(s, [Receive(d, ttl, chunk)] + steps) == Run(DoReceive(s, d, ttl, chunk), steps)
  {
    RunOne(s, Receive(d, ttl, chunk), steps);
  }

  lemma RunCommitDownloading(s: State, d: int, ttl: nat, steps: seq<Step>)
    requires CanCommitDownloading(s, d, ttl)
    ensures Run(s, [CommitDownloading(d, ttl, Acked)] + steps) == Run(DoCommitDownloading(s, d, ttl, Acked), steps)
  {
    RunOne(s, CommitDownloading(d, ttl, Acked), steps);
  }

  lemma RunCommitChunk(s: State, d: int, steps: seq<Step>)
    requires CanCommitChunk(s, d)
    ensures Run(s, [CommitChunk(d, Acked)] + steps) == Run(DoCommitChunk(s, d, Acked), steps)
  {
    RunOne(s, CommitChunk(d, Acked), steps);
  }

  lemma RunCrash(s: State, f: int, steps: seq<Step>)
    requires CanCrash(s, f)
    ensures Run(s, [Crash(f)] + steps) == Run(DoCrash(s, f), steps)
  {
    RunOne(s, Crash(f), steps);
  }

  lemma ExtendWriting(s: State, d: int) returns (steps: seq<Step>)
    requires Inv(s) && d in s.executors && s.executors[d].phase.Writing? && s.executors[d].temp.Some?
    requires s.executors[d].phase.written < |s.executors[d].phase.chunk|
    ensures var i := s.executors[d].temp.value.inode;
            i in s.files.data && i in Run(s, steps).files.data && |s.files.data[i]| < |Run(s, steps).files.data[i]|
  {
    assert ExecutorOk(s, d) && HolderOk(s, d);
    var step := WriteSome(d, 1);
    steps := [step] + [];
    assert CanWriteSome(s, d, 1);
    RunOne(s, step, []);
  }

  lemma StreamingCanReceive(s: State, d: int)
    requires InPhase(s, d, Streaming) && s.fence.None?
    requires HoldsLease(RowOf(s, d), s.executors[d].owner, s.executors[d].generation, s.now)
    requires |s.executors[d].digested| < FactOf(s, d).maxBytes
    ensures CanReceive(s, d, 5, [0])
    ensures var r := DoReceive(s, d, 5, [0]);
            && d in r.executors && r.executors[d].phase == Writing([0], 0, s.now + 5)
               && r.executors[d].temp == s.executors[d].temp
            && r.files == s.files
  {
  }

  lemma ExtendStreaming(s: State, d: int) returns (steps: seq<Step>)
    requires Inv(s) && InPhase(s, d, Streaming) && s.fence.None? && s.executors[d].temp.Some?
    requires HoldsLease(RowOf(s, d), s.executors[d].owner, s.executors[d].generation, s.now)
    requires |s.executors[d].digested| < FactOf(s, d).maxBytes
    ensures var i := s.executors[d].temp.value.inode;
            i in s.files.data && i in Run(s, steps).files.data && |s.files.data[i]| < |Run(s, steps).files.data[i]|
  {
    StreamingCanReceive(s, d);
    ReceiveKept(s, d, 5, [0]);
    var rest := ExtendWriting(DoReceive(s, d, 5, [0]), d);
    steps := [Receive(d, 5, [0])] + rest;
    RunReceive(s, d, 5, [0], rest);
  }

  lemma OpenedCanStart(s: State, d: int)
    requires InPhase(s, d, Opened) && s.fence.None? && HasFile(s, d)
    requires HoldsLease(RowOf(s, d), s.executors[d].owner, s.executors[d].generation, s.now)
    ensures CanCommitDownloading(s, d, 5)
    ensures var r := DoCommitDownloading(s, d, 5, Acked);
            && InPhase(r, d, Streaming) && r.fence.None? && r.executors[d].temp == s.executors[d].temp
               && r.files == s.files
            && r.executors[d].digested == s.executors[d].digested && FactOf(r, d).maxBytes == FactOf(s, d).maxBytes
            && HoldsLease(RowOf(r, d), r.executors[d].owner, r.executors[d].generation, r.now)
  {
  }

  lemma ExtendOpened(s: State, d: int) returns (steps: seq<Step>)
    requires Inv(s) && InPhase(s, d, Opened) && s.fence.None? && s.executors[d].temp.Some?
    requires HoldsLease(RowOf(s, d), s.executors[d].owner, s.executors[d].generation, s.now)
    requires |s.executors[d].digested| < FactOf(s, d).maxBytes
    ensures var i := s.executors[d].temp.value.inode;
            i in s.files.data && i in Run(s, steps).files.data && |s.files.data[i]| < |Run(s, steps).files.data[i]|
  {
    OpenedHasFile(s, d);
    OpenedCanStart(s, d);
    CommitDownloadingKept(s, d, 5, Acked);
    var rest := ExtendStreaming(DoCommitDownloading(s, d, 5, Acked), d);
    steps := [CommitDownloading(d, 5, Acked)] + rest;
    RunCommitDownloading(s, d, 5, rest);
  }

  lemma OpenedHasFile(s: State, d: int)
    requires Inv(s) && InPhase(s, d, Opened) && s.executors[d].temp.Some?
    ensures HasFile(s, d)
  {
    assert ExecutorOk(s, d);
  }

  lemma WrittenCanCommit(s: State, d: int)
    requires Local(s, d) && s.executors[d].phase.Writing? && s.now < s.executors[d].phase.until
    requires s.executors[d].phase.written == |s.executors[d].phase.chunk|
    ensures CanCommitChunk(s, d)
    ensures var r := DoCommitChunk(s, d, Acked);
            && InPhase(r, d, Streaming) && r.fence.None? && r.executors[d].temp == s.executors[d].temp
               && r.files == s.files
            && |r.executors[d].digested| == |s.executors[d].digested| + |s.executors[d].phase.chunk|
            && FactOf(r, d).maxBytes == FactOf(s, d).maxBytes
            && HoldsLease(RowOf(r, d), r.executors[d].owner, r.executors[d].generation, r.now)
  {
  }

  lemma ExtendWritten(s: State, d: int) returns (steps: seq<Step>)
    requires Inv(s) && d in s.executors && s.executors[d].phase.Writing? && s.executors[d].temp.Some? && Alive(s, d)
    requires s.executors[d].phase.written == |s.executors[d].phase.chunk| && s.now < s.executors[d].phase.until
    requires |s.executors[d].digested| + |s.executors[d].phase.chunk| < FactOf(s, d).maxBytes
    ensures var i := s.executors[d].temp.value.inode;
            i in s.files.data && i in Run(s, steps).files.data && |s.files.data[i]| < |Run(s, steps).files.data[i]|
  {
    LocalOf(s, d);
    WrittenCanCommit(s, d);
    CommitChunkKept(s, d, Acked);
    var rest := ExtendStreaming(DoCommitChunk(s, d, Acked), d);
    steps := [CommitChunk(d, Acked)] + rest;
    RunCommitChunk(s, d, rest);
  }

  /** An executor that may append can: its next moves make the file longer. */
  lemma AppenderCanExtend(s: State, d: int, i: int) returns (steps: seq<Step>)
    requires Inv(s) && MayAppend(s, d, i)
    ensures i in s.files.data && i in Run(s, steps).files.data && |s.files.data[i]| < |Run(s, steps).files.data[i]|
  {
    assert ExecutorOk(s, d);
    var phase := s.executors[d].phase;
    if phase.Writing? && phase.written < |phase.chunk| {
      steps := ExtendWriting(s, d);
    } else if phase.Writing? {
      steps := ExtendWritten(s, d);
    } else {
      if s.fence.Some? {
        steps := ExtendAfterCrash(s, d);
      } else {
        steps := ExtendFree(s, d);
      }
    }
  }

  /** The fence of a dead process is free again; everybody else is where they were. */
  lemma CrashFrees(s: State, f: int, d: int)
    requires s.fence == Some(f) && f in s.executors && s.executors[f].phase.Writing?
    requires d in s.executors && !s.executors[d].phase.Writing?
    ensures CanCrash(s, f)
    ensures var r := DoCrash(s, f);
            && r.fence.None? && r.now == s.now && r.tasks == s.tasks && r.facts == s.facts && r.files == s.files
            && d in r.executors && r.executors[d] == s.executors[d]
  {
  }

  lemma FencedIsWriting(s: State, f: int)
    requires Inv(s) && s.fence == Some(f)
    ensures f in s.executors && s.executors[f].phase.Writing?
  {
  }

  lemma ExtendAfterCrash(s: State, d: int) returns (steps: seq<Step>)
    requires Inv(s) && s.fence.Some? && Alive(s, d) && s.executors[d].temp.Some?
    requires s.executors[d].phase.Opened? || s.executors[d].phase.Streaming?
    requires HoldsLease(RowOf(s, d), s.executors[d].owner, s.executors[d].generation, s.now)
    requires |s.executors[d].digested| < FactOf(s, d).maxBytes
    ensures var i := s.executors[d].temp.value.inode;
            i in s.files.data && i in Run(s, steps).files.data && |s.files.data[i]| < |Run(s, steps).files.data[i]|
  {
    var f := s.fence.value;
    FencedIsWriting(s, f);
    CrashFrees(s, f, d);
    CrashKept(s, f);
    var rest := ExtendFree(DoCrash(s, f), d);
    steps := [Crash(f)] + rest;
    RunCrash(s, f, rest);
  }

  lemma ExtendFree(s: State, d: int) returns (steps: seq<Step>)
    requires Inv(s) && s.fence.None? && Alive(s, d) && s.executors[d].temp.Some?
    requires s.executors[d].phase.Opened? || s.executors[d].phase.Streaming?
    requires HoldsLease(RowOf(s, d), s.executors[d].owner, s.executors[d].generation, s.now)
    requires |s.executors[d].digested| < FactOf(s, d).maxBytes
    ensures var i := s.executors[d].temp.value.inode;
            i in s.files.data && i in Run(s, steps).files.data && |s.files.data[i]| < |Run(s, steps).files.data[i]|
  {
    if s.executors[d].phase.Opened? {
      steps := ExtendOpened(s, d);
    } else {
      steps := ExtendStreaming(s, d);
    }
  }

  /**
   The link call is not fenced. A visible file keeps its content in every continuation exactly when no executor that
   has it open could still append to it.
   */
  lemma VisibleContentIsFinalIff(s: State, i: int)
    requires Reachable(s) && Visible(s, i) && i in s.files.data
    ensures (forall steps :: i in Run(s, steps).files.data && Run(s, steps).files.data[i] == s.files.data[i])
            <==> (forall d :: !MayAppend(s, d, i))
  {
    ReachableInv(s);
    if forall d :: !MayAppend(s, d, i) {
      forall steps
        ensures i in Run(s, steps).files.data && Run(s, steps).files.data[i] == s.files.data[i]
      {
        NoAppenderNoChange(s, steps, i, IsVisible);
      }
    } else {
      var d :| MayAppend(s, d, i);
      var steps := AppenderCanExtend(s, d, i);
    }
  }

  lemma CurrentLinkerIsAlone(s: State, e: int, d: int)
    requires Inv(s) && CanLinkTarget(s, e) && Current(s, e)
    ensures !MayAppend(DoLinkTarget(s, e), d, Inode(s, e))
  {
    assert ExecutorOk(s, e);
    if d in s.executors {
      assert ExecutorOk(s, d);
    }
  }

  /** A run that still holds the lease when it links publishes final content. */
  lemma CurrentLinkerPublishesFinalContent(s: State, e: int, steps: seq<Step>)
    requires Reachable(s) && CanLinkTarget(s, e) && Current(s, e)
    requires s.files.temp[s.executors[e].temp.value.name] == Inode(s, e)
    ensures var r := Run(DoLinkTarget(s, e), steps);
            Inode(s, e) in r.files.data && r.files.data[Inode(s, e)] == s.executors[e].digested
  {
    ReachableInv(s);
    var m := DoLinkTarget(s, e);
    LinkTargetKept(s, e);
    var i := Inode(s, e);
    assert Visible(m, i) by {
      assert Target(s, e) in m.files.media && m.files.media[Target(s, e)] == i;
    }
    forall d
      ensures !MayAppend(m, d, i)
    {
      CurrentLinkerIsAlone(s, e, d);
    }
    assert HolderOk(s, e);
    NoAppenderNoChange(m, steps, i, IsVisible);
  }
}
