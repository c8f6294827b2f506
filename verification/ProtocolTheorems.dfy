/** What the download protocol guarantees over whole runs. */
module ProtocolTheorems {
  import opened Basics
  import opened Tasks
  import opened Transfer
  import opened Protocol
  import opened ProtocolInvariant
  import opened ProtocolFrames
  import opened ProtocolShapes
  import opened ProtocolSteps

  /** A state that some run from a fresh installation reaches. */
  ghost predicate Reachable(s: State) {
    exists s0, steps :: Initial(s0) && s == Run(s0, steps)
  }

  lemma ReachableInv(s: State)
    requires Reachable(s)
    ensures Inv(s)
  {
    var s0, steps :| Initial(s0) && s == Run(s0, steps);
    InitialInv(s0);
    RunKeeps(s0, steps);
  }

  lemma {:induction false} RunAppends(s: State, first: seq<Step>, more: seq<Step>)
    ensures Run(Run(s, first), more) == Run(s, first + more)
    decreases |first|
  {
    if first == [] {
      assert first + more == more;
    } else {
      assert (first + more)[0] == first[0] && (first + more)[1..] == first[1..] + more;
      RunAppends(After(s, first[0]), first[1..], more);
    }
  }

  lemma ReachableRun(s: State, steps: seq<Step>)
    requires Reachable(s)
    ensures Reachable(Run(s, steps))
  {
    var s0, first :| Initial(s0) && s == Run(s0, first);
    RunAppends(s0, first, steps);
  }

  // ---------------------------------------------------------------- resuming

  /** The committed offset never runs ahead of the file, and lags only behind an open or a cut-short write. */
  lemma ResumeOffsetMatchesFile(s: State, t: int)
    requires Reachable(s) && t in s.facts && s.facts[t].temp.Some?
    ensures var i := s.facts[t].temp.value.inode;
            && i in s.files.data
            && s.facts[t].resumeOffset <= |s.files.data[i]|
            && (s.fence.None? && i !in s.cutShort ==> s.facts[t].resumeOffset == |s.files.data[i]|)
  {
    ReachableInv(s);
    assert TaskOk(s, t);
  }

  // ---------------------------------------------------------------- fencing

  /**
   A byte enters a file of the download only through the write of an executor that has the fence, while the committed
   row is running under that executor's owner and generation; and what it appends continues what it has read and
   written.
   */
  lemma AppendsAreFenced(s: State, step: Step, i: int)
    requires Reachable(s) && i in s.maker && i in s.files.data
    requires i in After(s, step).files.data && After(s, step).files.data[i] != s.files.data[i]
    ensures s.fence.Some? && Alive(s, s.fence.value)
    ensures var x := s.executors[s.fence.value];
            var row := s.tasks[x.task];
            && step.WriteSome? && step.e == s.fence.value
            && x.temp.Some? && i == x.temp.value.inode && s.maker[i] == x.task && i !in s.sealed
            && row.state == Running && row.leaseOwner == Some(x.owner) && row.leaseGeneration == x.generation
            && x.phase.Writing? && After(s, step).files.data[i] <= x.digested + x.phase.chunk
  {
    ReachableInv(s);
    StepKeeps(s, step);
    assert step.WriteSome? && CanWriteSome(s, step.e, step.count);
    assert ExecutorOk(s, step.e) && HolderOk(s, step.e);
    AppendContinues(s, step.e, step.count);
  }

  lemma AppendContinues(s: State, e: int, count: nat)
    requires CanWriteSome(s, e, count) && s.files.data[Inode(s, e)] == Written(s.executors[e])
    ensures var r := DoWriteSome(s, e, count);
            var x := s.executors[e];
            && r.files.data[Inode(s, e)] <= x.digested + x.phase.chunk
            && forall i :: i in s.files.data && i != Inode(s, e) ==> r.files.data[i] == s.files.data[i]
  {
    var x := s.executors[e];
    PieceJoins(x.phase.chunk, x.phase.written, count);
    assert x.phase.chunk[..x.phase.written + count] <= x.phase.chunk;
  }

  /** The steps that a heartbeat guards. */
  predicate HeartbeatGuarded(step: Step) {
    step.CommitDownloading? || step.Receive? || step.WriteSome? || step.CommitChunk? || step.CommitVerified?
    || step.CommitPublished? || step.CommitDbLinked? || step.CommitIndexed?
  }

  predicate StepOf(step: Step, e: int) {
    match step
    case CommitDownloading(d, _, _) => d == e
    case Receive(d, _, _) => d == e
    case WriteSome(d, _) => d == e
    case CommitChunk(d, _) => d == e
    case CommitVerified(d, _, _) => d == e
    case CommitPublished(d, _, _) => d == e
    case CommitDbLinked(d, _, _) => d == e
    case CommitIndexed(d, _, _) => d == e
    case _ => false
  }

  /** The committed row is running under the owner and the generation of this run. */
  ghost predicate UnderLease(s: State, e: int) {
    && Alive(s, e)
    && RowOf(s, e).state == Running
    && RowOf(s, e).leaseOwner == Some(s.executors[e].owner)
    && RowOf(s, e).leaseGeneration == s.executors[e].generation
  }

  lemma UnleasedStepDoesNothing(s: State, step: Step, e: int)
    requires e in s.executors && ExecutorOk(s, e) && !UnderLease(s, e)
    requires StepOf(step, e)
    ensures After(s, step) == s
  {
  }

  /** A heartbeat-guarded step that has an effect is taken under the lease. */
  lemma EffectIsUnderLease(s: State, step: Step)
    requires Inv(s) && HeartbeatGuarded(step) && step.e in s.executors && After(s, step) != s
    ensures UnderLease(s, step.e)
  {
    assert ExecutorOk(s, step.e);
    if !UnderLease(s, step.e) {
      UnleasedStepDoesNothing(s, step, step.e);
    }
  }

  ghost predicate RecordsChange(s: State, r: State, t: int) {
    && t in s.tasks && t in s.facts && t in r.tasks && t in r.facts
    && (r.tasks[t].stage != s.tasks[t].stage || r.facts[t] != s.facts[t] || (t in r.links && t !in s.links))
  }

  /** What a step changes in the records it changes in those of its own task. */
  lemma ChangeIsOwn(s: State, r: State, step: Step, t: int)
    requires !ChangesRecords(step) ==> SameRecords(s, r)
    requires HasMover(step) && r != s ==> Alive(s, step.e) && OnlyTouches(s, r, step.e)
    requires RecordsChange(s, r, t)
    ensures ChangesRecords(step) && step.e in s.executors && s.executors[step.e].task == t
  {
  }

  lemma RecordChangerIsOwn(s: State, step: Step, t: int)
    requires Inv(s) && RecordsChange(s, After(s, step), t)
    ensures ChangesRecords(step) && step.e in s.executors && s.executors[step.e].task == t && After(s, step) != s
  {
    StepKeeps(s, step);
    ChangeIsOwn(s, After(s, step), step, t);
  }

  lemma UnguardedLeavesLinks(s: State, step: Step)
    requires step.CommitSucceeded? || step.MarkUnknown? || step.HandlerClear?
    ensures After(s, step).links == s.links
  {
  }

  /**
   Stages, offsets and link rows change only in a transaction whose heartbeat matched the current lease, in the final
   transition and its downgrade, or when the handler forgets a temporary file.
   */
  lemma RecordsChangeUnderLease(s: State, step: Step, t: int)
    requires Reachable(s) && RecordsChange(s, After(s, step), t)
    ensures ChangesRecords(step) && step.e in s.executors && s.executors[step.e].task == t
    ensures if HeartbeatGuarded(step)
            then && s.tasks[t].state == Running
                 && s.tasks[t].leaseOwner == Some(s.executors[step.e].owner)
                 && s.tasks[t].leaseGeneration == s.executors[step.e].generation
            else After(s, step).links == s.links
  {
    ReachableInv(s);
    RecordChangerIsOwn(s, step, t);
    if HeartbeatGuarded(step) {
      EffectIsUnderLease(s, step);
    } else {
      UnguardedLeavesLinks(s, step);
    }
  }

  lemma {:induction false} SupersededForever(s: State, steps: seq<Step>, e: int)
    requires Inv(s) && e in s.executors && !Current(s, e)
    ensures Inv(Run(s, steps)) && e in Run(s, steps).executors && !Current(Run(s, steps), e)
    decreases |steps|
  {
    if steps != [] {
      StepKeeps(s, steps[0]);
      assert ExecutorOk(s, e);
      SupersededForever(After(s, steps[0]), steps[1..], e);
    }
  }

  /** Once another run holds the lease, no heartbeat-guarded step of the old run ever has an effect again. */
  lemma SupersededExecutorIsInert(s: State, steps: seq<Step>, step: Step, e: int)
    requires Reachable(s) && e in s.executors && !Current(s, e)
    requires StepOf(step, e)
    ensures After(Run(s, steps), step) == Run(s, steps)
  {
    ReachableInv(s);
    SupersededForever(s, steps, e);
    UnleasedStepDoesNothing(Run(s, steps), step, e);
  }

  /** A heartbeat-guarded step of a run on this task that took effect. */
  ghost predicate TookEffect(s: State, step: Step, t: int) {
    HeartbeatGuarded(step) && After(s, step) != s && step.e in s.executors && s.executors[step.e].task == t
  }

  /** The generations of the heartbeat-guarded steps on one task that took effect, in order. */
  ghost function GuardedGenerations(s: State, steps: seq<Step>, t: int): seq<nat>
    decreases |steps|
  {
    if steps == [] then []
    else
      var rest := GuardedGenerations(After(s, steps[0]), steps[1..], t);
      if TookEffect(s, steps[0], t) then [s.executors[steps[0].e].generation] + rest else rest
  }

  lemma EffectNeedsCurrentLease(s: State, step: Step, t: int)
    requires Inv(s) && t in s.tasks && TookEffect(s, step, t)
    ensures s.executors[step.e].generation == s.tasks[t].leaseGeneration
  {
    EffectIsUnderLease(s, step);
  }

  lemma GenerationGrows(s: State, step: Step, t: int)
    requires Inv(s) && t in s.tasks
    ensures Inv(After(s, step)) && t in After(s, step).tasks
    ensures s.tasks[t].leaseGeneration <= After(s, step).tasks[t].leaseGeneration
  {
    StepKeeps(s, step);
  }

  ghost predicate AscendsFrom(low: nat, g: seq<nat>) {
    && (forall i :: 0 <= i < |g| ==> low <= g[i])
    && (forall i, j :: 0 <= i < j < |g| ==> g[i] <= g[j])
  }

  lemma AscendsEarlier(low: nat, next: nat, g: seq<nat>)
    requires low <= next && AscendsFrom(next, g)
    ensures AscendsFrom(low, g) && AscendsFrom(low, [low] + g)
  {
  }

  /** Fenced work on a task is done in the order of the generations of its leases. */
  lemma {:induction false} GuardedGenerationsAscend(s: State, steps: seq<Step>, t: int)
    requires Inv(s) && t in s.tasks
    ensures AscendsFrom(s.tasks[t].leaseGeneration, GuardedGenerations(s, steps, t))
    decreases |steps|
  {
    if steps != [] {
      GenerationGrows(s, steps[0], t);
      var r := After(s, steps[0]);
      GuardedGenerationsAscend(r, steps[1..], t);
      AscendsEarlier(s.tasks[t].leaseGeneration, r.tasks[t].leaseGeneration, GuardedGenerations(r, steps[1..], t));
      if TookEffect(s, steps[0], t) {
        EffectNeedsCurrentLease(s, steps[0], t);
      }
    }
  }

  // ---------------------------------------------------------------- stages

  /** In every reachable state the stage claims no more than files and rows bear out. */
  lemma StageNeverOverstates(s: State, t: int)
    requires Reachable(s) && t in s.tasks
    ensures t in s.facts
    ensures var row := s.tasks[t];
            && (row.stage == Verified && s.facts[t].temp.Some? ==>
                  var i := s.facts[t].temp.value.inode; i in s.files.data && Describes(s, row, s.files.data[i]))
            && (row.stage == Published || row.stage == DbLinked || row.stage == IndexCoordinated ==>
                  && s.facts[t].temp.None?
                  && row.target in s.files.media && s.files.media[row.target] in s.files.data
                  && Describes(s, row, s.files.data[s.files.media[row.target]]))
            && (row.stage == DbLinked || row.stage == IndexCoordinated || row.stage == DurableVerified ==>
                  && t in s.links && s.links[t].path == row.target
                  && row.target in s.files.media && s.files.media[row.target] in s.files.data
                  && s.links[t].sha256 == Sha256(s.files.data[s.files.media[row.target]])
                  && s.links[t].sizeBytes == |s.files.data[s.files.media[row.target]]|
                  && MeetsPlan(s.facts[t], s.files.data[s.files.media[row.target]]))
            && (row.state == Succeeded ==> row.stage == DurableVerified)
  {
    ReachableInv(s);
    assert TaskOk(s, t);
  }

  /**
   A committed link row and the file it describes stay as they are, whatever happens afterwards, and the file has the
   size and the digest that the plan demands.
   */
  lemma LinkRowsAreForever(s: State, steps: seq<Step>, t: int)
    requires Reachable(s) && t in s.links
    ensures var r := Run(s, steps);
            && t in r.links && r.links[t] == s.links[t]
            && var path := s.links[t].path;
               && path in s.files.media && s.files.media[path] in s.files.data
               && path in r.files.media && r.files.media[path] == s.files.media[path]
               && r.files.media[path] in r.files.data
               && r.files.data[r.files.media[path]] == s.files.data[s.files.media[path]]
               && s.links[t].sha256 == Sha256(r.files.data[r.files.media[path]])
               && s.links[t].sizeBytes == |r.files.data[r.files.media[path]]|
               && t in s.facts && t in r.facts && SameLimits(s.facts[t], r.facts[t])
               && MeetsPlan(r.facts[t], r.files.data[r.files.media[path]])
  {
    ReachableInv(s);
    RunKeeps(s, steps);
    assert t in s.tasks && TaskOk(s, t) && LinkOk(s, t);
  }

  // ---------------------------------------------------------------- publication

  /** No step replaces or removes a name in the media directory; only `LinkTarget` and foreign files add one. */
  lemma PublicationNeverClobbers(s: State, steps: seq<Step>, name: string)
    requires Reachable(s) && name in s.files.media
    ensures name in Run(s, steps).files.media && Run(s, steps).files.media[name] == s.files.media[name]
  {
    ReachableInv(s);
    RunKeeps(s, steps);
  }

  /** Of any number of runs, of this task or another, at most one links a given target. */
  lemma AtMostOneRunLinksATarget(s: State, d: int, e: int)
    requires Reachable(s) && Alive(s, d) && Alive(s, e)
    requires s.executors[d].published && s.executors[e].published && Target(s, d) == Target(s, e)
    ensures d == e
  {
    ReachableInv(s);
  }

  /** From the link on, through the removal of the temporary name, the verified inode has the target as its name. */
  lemma LinkedInodeStaysNamed(s: State, e: int, steps: seq<Step>)
    requires Reachable(s) && CanLinkTarget(s, e) && s.files.temp[s.executors[e].temp.value.name] == Inode(s, e)
    ensures var r := Run(DoLinkTarget(s, e), steps);
            && Target(s, e) in r.files.media && r.files.media[Target(s, e)] == Inode(s, e)
            && LinkCount(r.files, Inode(s, e)) >= 1
  {
    ReachableInv(s);
    var m := DoLinkTarget(s, e);
    assert ExecutorOk(s, e);
    LinkTargetKept(s, e);
    RunKeeps(m, steps);
    var r := Run(m, steps);
    assert Target(s, e) in NamesOf(r.files.media, Inode(s, e));
  }
}
