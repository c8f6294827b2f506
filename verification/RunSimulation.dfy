/**
 The log of a whole run of the imperative executor, raised commits and exception handler included, is a run of the state
 machine.
 */
module RunSimulation {
  import opened Basics
  import opened Tasks
  import opened Transfer
  import opened Protocol
  import opened ProtocolInvariant
  import opened ProtocolFrames
  import opened ProtocolShapes
  import opened ProtocolSteps
  import opened ProtocolTheorems
  import opened Simulation
  import B = ProtocolBars
  import D = Downloader

  /**
   What a run does at a time: a stage, a chunk with its offset or with an error during the writes, a step of the
   publication, an error elsewhere, or a step of the handler.
   */
  datatype Unit =
    | Staging(stage: Stage, pending: D.Pending, before: D.Database, after: D.Database, ending: Ending)
    | Chunking(appends: seq<D.Op>, before: D.Database, after: D.Database, ending: Ending)
    | Breaking(chunk: Bytes, appends: seq<D.Op>, ttl: nat, code: ErrorCode)
    | Linking
    | Unlinking(named: int, inode: int, length: nat, total: nat)
    | Completing(version: nat, ending: Ending)
    | Raising(code: ErrorCode)
    | Marking(version: nat)
    | Settling(version: nat, state: TaskState)
    | Discarding
    | Forgetting
    | Leaving

  /** What takes effect is logged. */
  function Logged(op: D.Op, ending: Ending): seq<D.Op> {
    if ending.RaisedBefore? then [] else [op]
  }

  function OpsOf(u: Unit): seq<D.Op> {
    match u
    case Staging(stage, pending, before, after, ending) => Logged(D.Stamped(stage, pending, before, after), ending)
    case Chunking(appends, before, after, ending) => appends + Logged(D.OffsetCommitted(before, after), ending)
    case Breaking(_, appends, _, _) => appends
    case Linking => [D.LinkedTarget]
    case Unlinking(named, inode, length, total) => [D.UnlinkedTemp(named, inode, length, total)]
    case Completing(_, ending) => Logged(D.Completed, ending)
    case _ => []
  }

  function Lengths(appends: seq<D.Op>): seq<nat> {
    if appends == [] then []
    else
      var last := appends[|appends| - 1];
      Lengths(appends[..|appends| - 1]) + [if last.Appended? then |last.bytes| else 0]
  }

  /** Heartbeat, the write calls that succeed, and the error that ends them. */
  function BrokenSteps(e: int, ttl: nat, chunk: Bytes, counts: seq<nat>, code: ErrorCode): seq<Step> {
    [Receive(e, ttl, chunk)] + Writes(e, counts) + [Raise(e, code)]
  }

  function StepsOf(e: int, u: Unit): seq<Step> {
    match u
    case Staging(stage, _, before, after, ending) => [StampStep(e, stage, Lifetime(before, after), ending)]
    case Chunking(appends, before, after, ending) =>
      ChunkSteps(e, Lifetime(before, after), D.AppendedBytes(appends), Lengths(appends), ending)
    case Breaking(chunk, appends, ttl, code) => BrokenSteps(e, ttl, chunk, Lengths(appends), code)
    case Linking => [LinkTarget(e)]
    case Unlinking(_, _, _, _) => [UnlinkTemp(e)]
    case Completing(version, ending) => [CommitSucceeded(e, version, ending)]
    case Raising(code) => [Raise(e, code)]
    case Marking(version) => [MarkUnknown(e, version)]
    case Settling(version, _) => [HandlerTransition(e, version)]
    case Discarding => [HandlerUnlink(e)]
    case Forgetting => [HandlerClear(e)]
    case Leaving => [Finish(e)]
  }

  predicate Pieces(appends: seq<D.Op>) {
    forall i :: 0 <= i < |appends| ==> appends[i].Appended? && appends[i].bytes != []
  }

  /** The conditions under which the executor does so, seen from the machine. */
  ghost predicate Does(s: State, e: int, u: Unit) {
    && Alive(s, e)
    && var x := s.executors[e];
       match u
       case Staging(stage, pending, before, after, _) => Stamps(s, e, stage, pending, before, after)
       case Chunking(appends, before, after, _) => Chunks(s, e, appends, before, after)
       case Breaking(chunk, appends, ttl, _) =>
         && CanReceive(s, e, ttl, chunk) && HasFile(s, e) && Pieces(appends) && D.AppendedBytes(appends) <= chunk
       case Linking => CanLinkTarget(s, e)
       case Unlinking(named, inode, length, total) =>
         CanUnlinkTemp(s, e) && named == inode == Inode(s, e) && length == total == |x.digested|
       case Completing(version, _) => CanCommitSucceeded(s, e, version)
       case Raising(_) => CanRaise(s, e)
       case Marking(version) => CanMarkUnknown(s, e, version)
       case Settling(version, state) =>
         CanHandlerTransition(s, e, version) && state == HandlerTarget(x.phase.code, x.published)
       case Discarding => CanHandlerUnlink(s, e)
       case Forgetting => CanHandlerClear(s, e)
       case Leaving => CanFinish(s, e)
  }

  ghost predicate Chunks(s: State, e: int, appends: seq<D.Op>, before: D.Database, after: D.Database)
    requires Alive(s, e)
  {
    var x := s.executors[e];
    && Mirrors(s, e, before) && x.phase.Streaming? && HasFile(s, e)
    && D.GuardedBy(D.OffsetCommitted(before, after), x.owner, x.generation)
    && appends != [] && Pieces(appends)
    && |x.digested + D.AppendedBytes(appends)| <= FactOf(s, e).maxBytes
    && after.row.bytesProcessed == |x.digested + D.AppendedBytes(appends)|
  }

  /** One more unit of a run, after what others have done in the meantime. */
  datatype Turn = Turn(others: seq<Step>, unit: Unit)

  function Init<T>(turns: seq<T>): seq<T>
    requires turns != []
  {
    turns[..|turns| - 1]
  }

  function Last<T>(turns: seq<T>): T
    requires turns != []
  {
    turns[|turns| - 1]
  }

  function LogOf(turns: seq<Turn>): seq<D.Op> {
    if turns == [] then [] else LogOf(Init(turns)) + OpsOf(Last(turns).unit)
  }

  /** What the handler has done. */
  function CleanupOf(turns: seq<Turn>): D.Cleanup {
    if turns == [] then D.UNTOUCHED
    else
      var c := CleanupOf(Init(turns));
      match Last(turns).unit
      case Marking(_) => c.(markedUnknown := true)
      case Settling(_, state) => c.(settled := Some(state))
      case Discarding => c.(discarded := true)
      case Forgetting => c.(forgot := true)
      case _ => c
  }

  function AllSteps(e: int, turns: seq<Turn>): seq<Step> {
    if turns == [] then [] else AllSteps(e, Init(turns)) + Last(turns).others + StepsOf(e, Last(turns).unit)
  }

  predicate Foreign(steps: seq<Step>, e: int) {
    forall i :: 0 <= i < |steps| && HasMover(steps[i]) ==> steps[i].e != e
  }

  /** Whenever it is the executor's turn, the machine is where its session is. */
  ghost predicate Plays(s: State, e: int, turns: seq<Turn>)
    decreases |turns|
  {
    turns == [] || (&& Plays(s, e, Init(turns)) && Foreign(Last(turns).others, e)
                    && Does(Run(Run(s, AllSteps(e, Init(turns))), Last(turns).others), e, Last(turns).unit))
  }

  // ---------------------------------------------------------------- others

  lemma ForeignStepLeaves(s: State, step: Step, e: int)
    requires Inv(s) && e in s.executors && (HasMover(step) ==> step.e != e)
    ensures Inv(After(s, step)) && e in After(s, step).executors && After(s, step).executors[e] == s.executors[e]
  {
    StepKeeps(s, step);
    B.OthersStandStill(s, After(s, step), step, e);
  }

  lemma {:induction false} ForeignStepsLeave(s: State, steps: seq<Step>, e: int)
    requires Inv(s) && e in s.executors && Foreign(steps, e)
    ensures Inv(Run(s, steps)) && e in Run(s, steps).executors && Run(s, steps).executors[e] == s.executors[e]
    decreases |steps|
  {
    if steps != [] {
      ForeignStepLeaves(s, steps[0], e);
      ForeignStepsLeave(After(s, steps[0]), steps[1..], e);
    }
  }

  // ---------------------------------------------------------------- logs

  lemma Regroup<T>(a: seq<T>, b: seq<T>, c: seq<T>)
    ensures (a + b) + c == a + (b + c)
  {
  }

  lemma AppendedByOne(log: seq<D.Op>, op: D.Op, longer: seq<D.Op>)
    requires longer == log + [op]
    ensures D.AppendedBytes(longer) == D.AppendedBytes(log) + (if op.Appended? then op.bytes else [])
  {
    D.AppendedSnoc(log, op);
  }

  lemma {:induction false} AppendedJoins(log: seq<D.Op>, more: seq<D.Op>)
    ensures D.AppendedBytes(log + more) == D.AppendedBytes(log) + D.AppendedBytes(more)
    decreases |more|
  {
    if more == [] {
      assert log + more == log;
    } else {
      var init, op := Init(more), Last(more);
      var bytes := if op.Appended? then op.bytes else [];
      AppendedJoins(log, init);
      Regroup(log, init, [op]);
      AppendedByOne(init, op, more);
      AppendedByOne(log + init, op, log + more);
      Regroup(D.AppendedBytes(log), D.AppendedBytes(init), bytes);
    }
  }

  lemma {:induction false} SumSnoc(counts: seq<nat>, c: nat)
    ensures Sum(counts + [c]) == Sum(counts) + c
    decreases |counts|
  {
    if counts != [] {
      assert (counts + [c])[1..] == counts[1..] + [c];
      SumSnoc(counts[1..], c);
    }
  }

  lemma {:induction false} LengthsAddUp(appends: seq<D.Op>)
    requires Pieces(appends)
    ensures Sum(Lengths(appends)) == |D.AppendedBytes(appends)| && forall c :: c in Lengths(appends) ==> 1 <= c
    ensures appends != [] ==> D.AppendedBytes(appends) != []
    decreases |appends|
  {
    if appends != [] {
      LengthsAddUp(Init(appends));
      SumSnoc(Lengths(Init(appends)), |Last(appends).bytes|);
    }
  }

  // ---------------------------------------------------------------- what a unit does

  /**
   The executor stands where the log has led: in the same phase, or, once it has raised, in the handler with its target
   linked exactly if the log says so.
   */
  ghost predicate Stands(r: State, e: int, log: seq<D.Op>) {
    && Alive(r, e) && D.PhaseOf(log).Some?
    && if InHandler(r.executors[e].phase)
       then r.executors[e].published <==> D.PastLink(D.PhaseOf(log).value)
       else D.PhaseOf(log).value == r.executors[e].phase
  }

  /** What one unit does to the executor: phase and content follow the log, and nobody leaves the handler. */
  ghost predicate Follows(s: State, r: State, e: int, u: Unit) {
    && Alive(s, e) && Alive(r, e) && r.executors[e].task == s.executors[e].task
    && (if InHandler(s.executors[e].phase)
        then InHandler(r.executors[e].phase) && r.executors[e].published == s.executors[e].published && OpsOf(u) == []
        else forall log :: D.PhaseOf(log) == Some(s.executors[e].phase) ==> Stands(r, e, log + OpsOf(u)))
    && (!InHandler(r.executors[e].phase) ==>
          r.executors[e].digested == s.executors[e].digested + D.AppendedBytes(OpsOf(u)))
    && (r.executors[e].phase.Clearing? ==> s.executors[e].phase.Clearing? || !r.executors[e].published)
  }

  lemma SingleOpFollows(s: State, r: State, e: int, u: Unit, op: D.Op)
    requires OpsOf(u) == [op] && !op.Appended? && Alive(s, e) && Alive(r, e)
    requires !InHandler(s.executors[e].phase) && !InHandler(r.executors[e].phase)
    requires r.executors[e].task == s.executors[e].task && r.executors[e].digested == s.executors[e].digested
    requires D.NextPhase(s.executors[e].phase, op) == Some(r.executors[e].phase)
    ensures Follows(s, r, e, u)
  {
    assert [] + [op] == [op];
    D.AppendedSnoc([], op);
    forall log | D.PhaseOf(log) == Some(s.executors[e].phase)
      ensures Stands(r, e, log + [op])
    {
      D.PhaseSnoc(log, op);
    }
  }

  /** What a unit that raises adds to the log does not tell whether the target is linked. */
  ghost predicate LeavesLink(p: Phase, ops: seq<D.Op>) {
    forall log :: D.PhaseOf(log) == Some(p) ==>
      D.PhaseOf(log + ops).Some? && (D.PastLink(D.PhaseOf(log + ops).value) <==> D.PastLink(p))
  }

  lemma PublishedByPhase(s: State, e: int)
    requires e in s.executors && ExecutorOk(s, e) && !InHandler(s.executors[e].phase)
    ensures s.executors[e].published <==> D.PastLink(s.executors[e].phase)
  {
  }

  lemma RaisedFollows(s: State, r: State, e: int, u: Unit)
    requires e in s.executors && ExecutorOk(s, e) && Alive(r, e) && !InHandler(s.executors[e].phase)
    requires r.executors[e].task == s.executors[e].task && r.executors[e].published == s.executors[e].published
    requires r.executors[e].phase.Failing? || r.executors[e].phase.Ended?
    requires LeavesLink(s.executors[e].phase, OpsOf(u))
    ensures Follows(s, r, e, u)
  {
    PublishedByPhase(s, e);
  }

  lemma NothingLeavesLink(p: Phase)
    ensures LeavesLink(p, [])
  {
    forall log | D.PhaseOf(log) == Some(p)
      ensures D.PhaseOf(log + []) == Some(p)
    {
      assert log + [] == log;
    }
  }

  lemma OpLeavesLink(p: Phase, op: D.Op)
    requires D.NextPhase(p, op).Some? && !op.LinkedTarget?
    ensures LeavesLink(p, [op])
  {
    forall log | D.PhaseOf(log) == Some(p)
      ensures D.PhaseOf(log + [op]) == D.NextPhase(p, op)
    {
      D.PhaseSnoc(log, op);
    }
  }

  lemma LoggedLeavesLink(p: Phase, op: D.Op, ending: Ending)
    requires D.NextPhase(p, op).Some? && !op.LinkedTarget?
    ensures LeavesLink(p, Logged(op, ending))
  {
    if ending.RaisedBefore? {
      NothingLeavesLink(p);
    } else {
      OpLeavesLink(p, op);
    }
  }

  lemma PiecesLeaveLink(appends: seq<D.Op>, last: seq<D.Op>)
    requires Pieces(appends) && |last| <= 1 && (last != [] ==> last[0].OffsetCommitted?)
    ensures LeavesLink(Streaming, appends + last)
  {
    forall log | D.PhaseOf(log) == Some(Streaming)
      ensures D.PhaseOf(log + (appends + last)) == Some(Streaming)
    {
      D.PhaseOfAppends(log, log + (appends + last));
    }
  }

  lemma RunOfOne(s: State, step: Step)
    ensures Run(s, [step]) == After(s, step)
  {
    assert [step][1..] == [];
  }

  lemma StepFollows(s: State, e: int, u: Unit, step: Step)
    requires StepsOf(e, u) == [step] && Follows(s, After(s, step), e, u)
    ensures Follows(s, Run(s, StepsOf(e, u)), e, u)
  {
    RunOfOne(s, step);
  }

  // ---------------------------------------------------------------- stages

  lemma StampTaken(s: State, e: int, u: Unit, r: State)
    requires u.Staging? && u.ending.Acked? && Alive(s, e) && Alive(r, e) && OnlyPhase(s, r, e)
    requires !InHandler(s.executors[e].phase) && !InHandler(r.executors[e].phase)
    requires D.NextPhase(s.executors[e].phase, D.Stamped(u.stage, u.pending, u.before, u.after))
          == Some(r.executors[e].phase)
    ensures Follows(s, r, e, u)
  {
    SingleOpFollows(s, r, e, u, D.Stamped(u.stage, u.pending, u.before, u.after));
  }

  lemma StampRaised(s: State, e: int, u: Unit, r: State)
    requires u.Staging? && !u.ending.Acked? && e in s.executors && ExecutorOk(s, e) && Alive(r, e) && OnlyPhase(s, r, e)
    requires !InHandler(s.executors[e].phase) && r.executors[e].phase.Failing?
    requires D.NextPhase(s.executors[e].phase, D.Stamped(u.stage, u.pending, u.before, u.after)).Some?
    ensures Follows(s, r, e, u)
  {
    LoggedLeavesLink(s.executors[e].phase, D.Stamped(u.stage, u.pending, u.before, u.after), u.ending);
    RaisedFollows(s, r, e, u);
  }

  lemma StampFollows(s: State, e: int, u: Unit, r: State, p: Phase)
    requires u.Staging? && e in s.executors && ExecutorOk(s, e)
    requires D.NextPhase(s.executors[e].phase, D.Stamped(u.stage, u.pending, u.before, u.after)) == Some(p)
    requires Alive(r, e) && OnlyPhase(s, r, e) && r.executors[e].phase == Landing(p, u.ending)
    ensures Follows(s, r, e, u)
  {
    if u.ending.Acked? {
      StampTaken(s, e, u, r);
    } else {
      StampRaised(s, e, u, r);
    }
  }

  lemma StagingFollows(s: State, e: int, stage: Stage, pending: D.Pending, before: D.Database, after: D.Database,
                       ending: Ending, r: State)
    requires Stamps(s, e, stage, pending, before, after)
    requires r == After(s, StampStep(e, stage, Lifetime(before, after), ending))
    ensures Follows(s, r, e, Staging(stage, pending, before, after, ending))
  {
    StampIsAStep(s, e, stage, pending, before, after, ending);
    StampFollows(s, e, Staging(stage, pending, before, after, ending), r,
                 D.NextPhase(s.executors[e].phase, D.Stamped(stage, pending, before, after)).value);
  }

  lemma StagingIsAUnit(s: State, e: int, stage: Stage, pending: D.Pending, before: D.Database, after: D.Database,
                       ending: Ending)
    requires Stamps(s, e, stage, pending, before, after)
    ensures Follows(s, Run(s, StepsOf(e, Staging(stage, pending, before, after, ending))), e,
                    Staging(stage, pending, before, after, ending))
  {
    var step := StampStep(e, stage, Lifetime(before, after), ending);
    StagingFollows(s, e, stage, pending, before, after, ending, After(s, step));
    StepFollows(s, e, Staging(stage, pending, before, after, ending), step);
  }

  // ---------------------------------------------------------------- chunks

  /** The log of a chunk stays at the phase of receiving, and appends what its pieces append. */
  lemma ChunkIsLogged(log: seq<D.Op>, appends: seq<D.Op>, op: D.Op)
    requires Pieces(appends) && op.OffsetCommitted?
    ensures D.AppendedBytes(appends + [op]) == D.AppendedBytes(appends)
    ensures D.PhaseOf(log) == Some(Streaming) ==> D.PhaseOf(log + (appends + [op])) == Some(Streaming)
  {
    AppendedByOne(appends, op, appends + [op]);
    if D.PhaseOf(log) == Some(Streaming) {
      D.PhaseOfAppends(log, log + (appends + [op]));
    }
  }

  lemma ChunkTakenFollows(s: State, r: State, e: int, u: Unit)
    requires u.Chunking? && u.ending.Acked? && Alive(s, e) && Alive(r, e) && s.executors[e].phase.Streaming?
    requires r.executors[e] == Took(s.executors[e], D.AppendedBytes(u.appends), Acked) && Pieces(u.appends)
    ensures Follows(s, r, e, u)
  {
    var op := D.OffsetCommitted(u.before, u.after);
    ChunkIsLogged([], u.appends, op);
    forall log | D.PhaseOf(log) == Some(Streaming)
      ensures D.PhaseOf(log + OpsOf(u)) == Some(Streaming)
    {
      ChunkIsLogged(log, u.appends, op);
    }
  }

  lemma ChunkFollows(s: State, r: State, e: int, u: Unit)
    requires u.Chunking? && e in s.executors && ExecutorOk(s, e) && Alive(r, e) && s.executors[e].phase.Streaming?
    requires r.executors[e] == Took(s.executors[e], D.AppendedBytes(u.appends), u.ending) && Pieces(u.appends)
    ensures Follows(s, r, e, u)
  {
    if u.ending.Acked? {
      ChunkTakenFollows(s, r, e, u);
    } else {
      PiecesLeaveLink(u.appends, Logged(D.OffsetCommitted(u.before, u.after), u.ending));
      RaisedFollows(s, r, e, u);
    }
  }

  lemma ChunkingFollows(s: State, e: int, appends: seq<D.Op>, before: D.Database, after: D.Database, ending: Ending)
    requires e in s.executors && ExecutorOk(s, e) && Chunks(s, e, appends, before, after)
    ensures Follows(s, Run(s, StepsOf(e, Chunking(appends, before, after, ending))), e,
                    Chunking(appends, before, after, ending))
  {
    var u := Chunking(appends, before, after, ending);
    LengthsAddUp(appends);
    ChunkIsARun(s, e, D.AppendedBytes(appends), Lengths(appends), before, after, ending);
    ChunkFollows(s, Run(s, StepsOf(e, u)), e, u);
  }

  /** After some of the writes the run is still writing, and an error takes it to the handler. */
  lemma WritesBreak(s: State, e: int, ttl: nat, chunk: Bytes, counts: seq<nat>, code: ErrorCode)
    requires CanReceive(s, e, ttl, chunk) && HasFile(s, e)
    requires Sum(counts) <= |chunk| && forall c :: c in counts ==> 1 <= c
    ensures var r := DoReceive(s, e, ttl, chunk);
            && Alive(r, e) && r.executors[e].phase == Writing(chunk, 0, s.now + ttl) && HasFile(r, e)
            && var w := Wrote(r, e, Sum(counts));
               && CanRaise(w, e) && w.executors[e].phase.Writing?
               && OnlyPhase(s, w, e) && w.tasks == s.tasks && w.facts == s.facts
               && Run(s, BrokenSteps(e, ttl, chunk, counts, code)) == Run(w, [Raise(e, code)])
  {
    var received := DoReceive(s, e, ttl, chunk);
    ReceivedInFull(s, e, ttl, chunk);
    ReceiveIsAStep(s, e, ttl, chunk);
    WritesAddUp(received, e, counts);
    RunAppends(s, [Receive(e, ttl, chunk)], Writes(e, counts));
    RunAppends(s, [Receive(e, ttl, chunk)] + Writes(e, counts), [Raise(e, code)]);
  }

  lemma BrokenFollows(s: State, w: State, r: State, e: int, u: Unit)
    requires u.Breaking? && Pieces(u.appends) && e in s.executors && ExecutorOk(s, e) && s.executors[e].phase.Streaming?
    requires OnlyPhase(s, w, e) && w.tasks == s.tasks && w.facts == s.facts && w.executors[e].phase.Writing?
    requires CanRaise(w, e) && r == DoRaise(w, e, u.code)
    ensures Follows(s, r, e, u)
  {
    PiecesLeaveLink(u.appends, []);
    assert u.appends + [] == u.appends;
    RaisedFollows(s, r, e, u);
  }

  lemma BreakingFollows(s: State, e: int, u: Unit)
    requires u.Breaking? && e in s.executors && ExecutorOk(s, e) && Does(s, e, u)
    ensures Follows(s, Run(s, StepsOf(e, u)), e, u)
  {
    LengthsAddUp(u.appends);
    WritesBreak(s, e, u.ttl, u.chunk, Lengths(u.appends), u.code);
    var w := Wrote(DoReceive(s, e, u.ttl, u.chunk), e, Sum(Lengths(u.appends)));
    RunOfOne(w, Raise(e, u.code));
    AfterRaise(w, e, u.code);
    BrokenFollows(s, w, DoRaise(w, e, u.code), e, u);
  }

  // ---------------------------------------------------------------- publication

  lemma LinkingFollows(s: State, e: int, r: State)
    requires CanLinkTarget(s, e) && r == DoLinkTarget(s, e)
    ensures Follows(s, r, e, Linking)
  {
    SingleOpFollows(s, r, e, Linking, D.LinkedTarget);
  }

  lemma UnlinkingFollows(s: State, e: int, u: Unit, r: State)
    requires u.Unlinking? && CanUnlinkTemp(s, e) && r == DoUnlinkTemp(s, e)
    ensures Follows(s, r, e, u)
  {
    SingleOpFollows(s, r, e, u, D.UnlinkedTemp(u.named, u.inode, u.length, u.total));
  }

  lemma CompletingFollows(s: State, e: int, version: nat, ending: Ending, r: State)
    requires CanCommitSucceeded(s, e, version) && r == DoCommitSucceeded(s, e, version, ending) && ExecutorOk(s, e)
    ensures Follows(s, r, e, Completing(version, ending))
  {
    if ending.Acked? {
      SingleOpFollows(s, r, e, Completing(version, ending), D.Completed);
    } else {
      LoggedLeavesLink(s.executors[e].phase, D.Completed, ending);
      RaisedFollows(s, r, e, Completing(version, ending));
    }
  }

  lemma LinkingIsAUnit(s: State, e: int)
    requires CanLinkTarget(s, e)
    ensures Follows(s, Run(s, StepsOf(e, Linking)), e, Linking)
  {
    RunOfOne(s, LinkTarget(e));
    LinkingFollows(s, e, DoLinkTarget(s, e));
  }

  lemma UnlinkingIsAUnit(s: State, e: int, u: Unit)
    requires u.Unlinking? && CanUnlinkTemp(s, e)
    ensures Follows(s, Run(s, StepsOf(e, u)), e, u)
  {
    RunOfOne(s, UnlinkTemp(e));
    UnlinkingFollows(s, e, u, DoUnlinkTemp(s, e));
  }

  lemma CompletingLands(s: State, e: int, version: nat, ending: Ending)
    requires CanCommitSucceeded(s, e, version) && ExecutorOk(s, e)
    ensures Follows(s, After(s, CommitSucceeded(e, version, ending)), e, Completing(version, ending))
  {
    AfterCommitSucceeded(s, e, version, ending);
    CompletingFollows(s, e, version, ending, DoCommitSucceeded(s, e, version, ending));
  }

  lemma CompletingIsAUnit(s: State, e: int, version: nat, ending: Ending)
    requires CanCommitSucceeded(s, e, version) && ExecutorOk(s, e)
    ensures Follows(s, Run(s, StepsOf(e, Completing(version, ending))), e, Completing(version, ending))
  {
    CompletingLands(s, e, version, ending);
    StepFollows(s, e, Completing(version, ending), CommitSucceeded(e, version, ending));
  }

  // ---------------------------------------------------------------- errors and the handler

  predicate OfHandler(u: Unit) {
    u.Marking? || u.Settling? || u.Discarding? || u.Forgetting?
  }

  lemma RaisingFollows(s: State, e: int, u: Unit, r: State)
    requires u.Raising? && CanRaise(s, e) && r == DoRaise(s, e, u.code) && ExecutorOk(s, e)
    ensures Follows(s, r, e, u)
  {
    if !InHandler(s.executors[e].phase) {
      NothingLeavesLink(s.executors[e].phase);
      RaisedFollows(s, r, e, u);
    }
  }

  lemma LeavingFollows(s: State, e: int, r: State)
    requires CanFinish(s, e) && r == DoFinish(s, e) && ExecutorOk(s, e)
    ensures Follows(s, r, e, Leaving)
  {
    if !InHandler(s.executors[e].phase) {
      NothingLeavesLink(s.executors[e].phase);
      RaisedFollows(s, r, e, Leaving);
    }
  }

  lemma MovesInHandler(step: Step, x: Executor, y: Executor)
    requires Moves(step, x, y) && InHandler(x.phase)
    ensures InHandler(y.phase) && y.task == x.task && y.published == x.published
    ensures y.phase.Clearing? ==> x.phase.Clearing? || step.HandlerUnlink?
  {
  }

  /** In the handler, an own step changes nothing, or moves within the handler. */
  lemma HandlerMoves(s: State, step: Step, e: int, r: State)
    requires Inv(s) && Alive(s, e) && HasMover(step) && step.e == e && r == After(s, step)
    ensures Alive(r, e) && (r.executors[e] == s.executors[e] || Moves(step, s.executors[e], r.executors[e]))
  {
    StepKeeps(s, step);
    assert Inv(r);
    if r != s {
      assert OnlyTouches(s, r, e);
      assert ExecutorOk(r, e);
    }
  }

  lemma HandlerUnitMoves(s: State, r: State, e: int, u: Unit)
    requires OfHandler(u) && Does(s, e, u) && Alive(r, e)
    requires r.executors[e] == s.executors[e] || Moves(StepsOf(e, u)[0], s.executors[e], r.executors[e])
    ensures Follows(s, r, e, u)
  {
    if r.executors[e] != s.executors[e] {
      MovesInHandler(StepsOf(e, u)[0], s.executors[e], r.executors[e]);
    }
  }

  lemma HandlerFollows(s: State, e: int, u: Unit)
    requires OfHandler(u) && Does(s, e, u) && Inv(s)
    ensures Follows(s, Run(s, StepsOf(e, u)), e, u)
  {
    RunOfOne(s, StepsOf(e, u)[0]);
    HandlerMoves(s, StepsOf(e, u)[0], e, Run(s, StepsOf(e, u)));
    HandlerUnitMoves(s, Run(s, StepsOf(e, u)), e, u);
  }

  lemma RaisingIsAUnit(s: State, e: int, code: ErrorCode)
    requires CanRaise(s, e) && ExecutorOk(s, e)
    ensures Follows(s, Run(s, StepsOf(e, Raising(code))), e, Raising(code))
  {
    RunOfOne(s, Raise(e, code));
    AfterRaise(s, e, code);
    RaisingFollows(s, e, Raising(code), DoRaise(s, e, code));
  }

  lemma LeavingLands(s: State, e: int)
    requires CanFinish(s, e) && ExecutorOk(s, e)
    ensures Follows(s, After(s, Finish(e)), e, Leaving)
  {
    LeavingFollows(s, e, DoFinish(s, e));
  }

  lemma LeavingIsAUnit(s: State, e: int)
    requires CanFinish(s, e) && ExecutorOk(s, e)
    ensures Follows(s, Run(s, StepsOf(e, Leaving)), e, Leaving)
  {
    LeavingLands(s, e);
    StepFollows(s, e, Leaving, Finish(e));
  }

  lemma UnitFollows(s: State, e: int, u: Unit)
    requires Inv(s) && Does(s, e, u)
    ensures Follows(s, Run(s, StepsOf(e, u)), e, u)
  {
    if OfHandler(u) {
      HandlerFollows(s, e, u);
    } else {
      OwnUnitFollows(s, e, u);
    }
  }

  lemma OwnUnitFollows(s: State, e: int, u: Unit)
    requires e in s.executors && ExecutorOk(s, e) && Does(s, e, u) && !OfHandler(u)
    ensures Follows(s, Run(s, StepsOf(e, u)), e, u)
  {
    match u
    case Staging(stage, pending, before, after, ending) => StagingIsAUnit(s, e, stage, pending, before, after, ending);
    case Chunking(appends, before, after, ending) => ChunkingFollows(s, e, appends, before, after, ending);
    case Breaking(_, _, _, _) => BreakingFollows(s, e, u);
    case Linking => LinkingIsAUnit(s, e);
    case Unlinking(_, _, _, _) => UnlinkingIsAUnit(s, e, u);
    case Completing(version, ending) => CompletingIsAUnit(s, e, version, ending);
    case Raising(code) => RaisingIsAUnit(s, e, code);
    case Leaving => LeavingIsAUnit(s, e);
  }

  /** Others leave the executor where it is, so a turn does what its unit does. */
  lemma TurnFollows(m: State, e: int, turn: Turn)
    requires Inv(m) && Alive(m, e) && Foreign(turn.others, e) && Does(Run(m, turn.others), e, turn.unit)
    ensures Follows(m, Run(Run(m, turn.others), StepsOf(e, turn.unit)), e, turn.unit)
  {
    ForeignStepsLeave(m, turn.others, e);
    UnitFollows(Run(m, turn.others), e, turn.unit);
  }

  // ---------------------------------------------------------------- a whole run

  /** The log and the machine have come to the same phase and, until the run raises, to the same content. */
  ghost predicate InStep(s: State, r: State, e: int, log: seq<D.Op>) {
    && Alive(s, e) && Alive(r, e) && r.executors[e].task == s.executors[e].task
    && Stands(r, e, log)
    && (!InHandler(r.executors[e].phase) ==>
          r.executors[e].digested == s.executors[e].digested + D.AppendedBytes(log))
  }

  lemma ContentJoins(resumed: Bytes, log: seq<D.Op>, more: seq<D.Op>)
    ensures (resumed + D.AppendedBytes(log)) + D.AppendedBytes(more) == resumed + D.AppendedBytes(log + more)
  {
    AppendedJoins(log, more);
    Regroup(resumed, D.AppendedBytes(log), D.AppendedBytes(more));
  }

  lemma StaysInStep(s: State, m: State, r: State, e: int, log: seq<D.Op>, u: Unit)
    requires InStep(s, m, e, log) && Follows(m, r, e, u)
    ensures InStep(s, r, e, log + OpsOf(u))
  {
    ContentJoins(s.executors[e].digested, log, OpsOf(u));
    if InHandler(m.executors[e].phase) {
      assert log + OpsOf(u) == log;
    }
  }

  lemma LastTurn(s: State, e: int, turns: seq<Turn>)
    requires turns != []
    ensures Run(s, AllSteps(e, turns))
         == Run(Run(Run(s, AllSteps(e, Init(turns))), Last(turns).others), StepsOf(e, Last(turns).unit))
  {
    var steps, last := AllSteps(e, Init(turns)), Last(turns);
    RunAppends(s, steps, last.others);
    RunAppends(s, steps + last.others, StepsOf(e, last.unit));
  }

  /**
   A whole run of the executor, with any steps of others between its turns and however its commits end, is a run of the
   machine. Until it raises, the phase of the machine is the one that the log has led to, and what it has digested is
   what was resumed and all that was appended; from then on the machine is in the handler, and the target is linked
   exactly if the log says so.
   */
  lemma {:induction false} LogIsARun(s: State, e: int, turns: seq<Turn>)
    requires Reachable(s) && Alive(s, e) && s.executors[e].phase == Opened && Plays(s, e, turns)
    ensures Reachable(Run(s, AllSteps(e, turns))) && InStep(s, Run(s, AllSteps(e, turns)), e, LogOf(turns))
    decreases |turns|
  {
    ReachableRun(s, AllSteps(e, turns));
    if turns != [] {
      var m := Run(s, AllSteps(e, Init(turns)));
      LogIsARun(s, e, Init(turns));
      ReachableInv(m);
      TurnFollows(m, e, Last(turns));
      LastTurn(s, e, turns);
      StaysInStep(s, m, Run(s, AllSteps(e, turns)), e, LogOf(Init(turns)), Last(turns).unit);
    }
  }

  // ---------------------------------------------------------------- what is delivered

  /** The task has its link row, and the target holds this content, of the size, digest and type that are demanded. */
  ghost predicate Delivered(r: State, t: int, content: Bytes) {
    && t in r.links && t in r.tasks && t in r.facts
    && r.links[t] == LinkRow(r.tasks[t].asset, r.tasks[t].target, r.tasks[t].mimeType, |content|, Sha256(content))
    && SealedAt(r, r.tasks[t].target) && r.files.data[r.files.media[r.tasks[t].target]] == content
    && MeetsPlan(r.facts[t], content) && Sniffed(r, content) == Some(r.tasks[t].mimeType)
  }

  lemma DeliveredStays(s: State, r: State, t: int, content: Bytes)
    requires Delivered(s, t, content) && Permanent(s, r)
    ensures Delivered(r, t, content)
  {
  }

  lemma DeliveredForever(s: State, steps: seq<Step>, t: int, content: Bytes)
    requires Inv(s) && Delivered(s, t, content)
    ensures Delivered(Run(s, steps), t, content)
  {
    RunKeeps(s, steps);
    DeliveredStays(s, Run(s, steps), t, content);
  }

  /** A run that is past the commit of its link row has delivered. */
  lemma LinkerDelivers(r: State, e: int)
    requires e in r.executors && ExecutorOk(r, e) && AfterRowLinked(r.executors[e].phase)
    ensures Delivered(r, r.executors[e].task, r.executors[e].digested)
  {
  }

  /** So has one whose commit of the link row took effect, however that commit ended. */
  lemma LinkCommitDelivers(s: State, r: State, e: int)
    requires e in s.executors && ExecutorOk(s, e) && s.executors[e].phase.Recorded? && Permanent(s, r)
    requires r.links == s.links[s.executors[e].task := LinkRowOf(s, e)]
    ensures Delivered(r, s.executors[e].task, s.executors[e].digested)
  {
  }

  lemma UnitDelivers(s: State, e: int, stage: Stage, pending: D.Pending, before: D.Database, after: D.Database,
                     ending: Ending, r: State)
    requires Inv(s) && Stamps(s, e, stage, pending, before, after) && stage == DbLinked && !ending.RaisedBefore?
    requires r == After(s, StampStep(e, stage, Lifetime(before, after), ending))
    ensures Delivered(r, s.executors[e].task, s.executors[e].digested)
  {
    StampPhases(s.executors[e].phase, stage, pending, before, after);
    StampIsAStep(s, e, stage, pending, before, after, ending);
    StepKeeps(s, StampStep(e, stage, Lifetime(before, after), ending));
    assert ExecutorOk(s, e);
    LinkCommitDelivers(s, r, e);
  }

  lemma SingleAppendsNothing(ops: seq<D.Op>)
    requires ops == [] || (ops == [ops[0]] && !ops[0].Appended?)
    ensures D.AppendedBytes(ops) == []
  {
    if ops != [] {
      assert ops[..|ops| - 1] == [];
    }
  }

  /** Once the log is past the link row, nothing is appended any more. */
  lemma QuietUnit(s: State, e: int, u: Unit)
    requires Does(s, e, u) && !s.executors[e].phase.Streaming?
    ensures D.AppendedBytes(OpsOf(u)) == []
  {
    SingleAppendsNothing(OpsOf(u));
  }

  /** Where a unit takes the log. */
  lemma UnitLogs(s: State, e: int, u: Unit, log: seq<D.Op>)
    requires Does(s, e, u) && D.PhaseOf(log) == Some(s.executors[e].phase)
    ensures OpsOf(u) == [] ==> D.PhaseOf(log + OpsOf(u)) == D.PhaseOf(log)
    ensures u.Chunking? || u.Breaking? ==> D.PhaseOf(log + OpsOf(u)) == Some(Streaming)
    ensures !u.Chunking? && !u.Breaking? && OpsOf(u) != [] ==>
              OpsOf(u) == [OpsOf(u)[0]] && D.PhaseOf(log + OpsOf(u)) == D.NextPhase(s.executors[e].phase, OpsOf(u)[0])
  {
    if OpsOf(u) == [] {
      assert log + OpsOf(u) == log;
    } else if u.Chunking? {
      D.PhaseOfAppends(log, log + OpsOf(u));
    } else if u.Breaking? {
      D.PhaseOfAppends(log, log + OpsOf(u));
    } else {
      D.PhaseSnoc(log, OpsOf(u)[0]);
    }
  }

  /** A unit that raises takes the log past the link row only if it is the commit of that row. */
  lemma OnlyLinkCommitGetsThere(s: State, r: State, e: int, u: Unit, log: seq<D.Op>)
    requires Does(s, e, u) && Follows(s, r, e, u) && InHandler(r.executors[e].phase)
    requires D.PhaseOf(log) == Some(s.executors[e].phase) && !AfterRowLinked(s.executors[e].phase)
    requires D.PhaseOf(log + OpsOf(u)).Some? && AfterRowLinked(D.PhaseOf(log + OpsOf(u)).value)
    ensures u.Staging? && u.stage == DbLinked && !u.ending.RaisedBefore? && OpsOf(u)[0].Stamped?
  {
    UnitLogs(s, e, u, log);
  }

  /** The machine has delivered if the log is past the link row. */
  ghost predicate AsLogged(s: State, r: State, e: int, log: seq<D.Op>) {
    && e in s.executors && D.PhaseOf(log).Some?
    && (AfterRowLinked(D.PhaseOf(log).value) ==>
          Delivered(r, s.executors[e].task, s.executors[e].digested + D.AppendedBytes(log)))
  }

  lemma LinkUnitDelivers(m: State, e: int, u: Unit, r: State)
    requires Inv(m) && u.Staging? && u.stage == DbLinked && !u.ending.RaisedBefore? && Does(m, e, u)
    requires r == Run(m, StepsOf(e, u))
    ensures Delivered(r, m.executors[e].task, m.executors[e].digested)
  {
    var step := StampStep(e, u.stage, Lifetime(u.before, u.after), u.ending);
    RunOfOne(m, step);
    UnitDelivers(m, e, u.stage, u.pending, u.before, u.after, u.ending, After(m, step));
  }

  lemma DeliveredThrough(m: State, others: seq<Step>, steps: seq<Step>, t: int, content: Bytes)
    requires Inv(m) && Delivered(m, t, content)
    ensures Delivered(Run(Run(m, others), steps), t, content)
  {
    RunAppends(m, others, steps);
    DeliveredForever(m, others + steps, t, content);
  }

  lemma QuietTurn(m: State, e: int, turn: Turn, log: seq<D.Op>)
    requires Inv(m) && Alive(m, e) && !m.executors[e].phase.Streaming?
    requires Foreign(turn.others, e) && Does(Run(m, turn.others), e, turn.unit)
    ensures D.AppendedBytes(log + OpsOf(turn.unit)) == D.AppendedBytes(log)
  {
    ForeignStepsLeave(m, turn.others, e);
    QuietUnit(Run(m, turn.others), e, turn.unit);
    AppendedJoins(log, OpsOf(turn.unit));
  }

  /** A turn that starts past the link row. */
  lemma DeliveredTurn(s: State, m: State, e: int, turn: Turn, log: seq<D.Op>, r: State)
    requires Inv(m) && InStep(s, m, e, log) && AsLogged(s, m, e, log) && AfterRowLinked(D.PhaseOf(log).value)
    requires Foreign(turn.others, e) && Does(Run(m, turn.others), e, turn.unit)
    requires r == Run(Run(m, turn.others), StepsOf(e, turn.unit)) && D.PhaseOf(log + OpsOf(turn.unit)).Some?
    ensures AsLogged(s, r, e, log + OpsOf(turn.unit))
  {
    var content := s.executors[e].digested + D.AppendedBytes(log);
    DeliveredThrough(m, turn.others, StepsOf(e, turn.unit), s.executors[e].task, content);
    QuietTurn(m, e, turn, log);
  }

  /** A unit that gets past the link row, and raises or goes on. */
  lemma RaisedUnitDelivers(s: State, m: State, e: int, u: Unit, log: seq<D.Op>, r: State)
    requires Inv(m) && Does(m, e, u) && r == Run(m, StepsOf(e, u)) && Follows(m, r, e, u)
    requires InStep(s, m, e, log) && !InHandler(m.executors[e].phase) && InHandler(r.executors[e].phase)
    requires !AfterRowLinked(D.PhaseOf(log).value)
    requires D.PhaseOf(log + OpsOf(u)).Some? && AfterRowLinked(D.PhaseOf(log + OpsOf(u)).value)
    ensures Delivered(r, s.executors[e].task, s.executors[e].digested + D.AppendedBytes(log + OpsOf(u)))
  {
    OnlyLinkCommitGetsThere(m, r, e, u, log);
    LinkUnitDelivers(m, e, u, r);
    AppendedByOne(log, OpsOf(u)[0], log + OpsOf(u));
  }

  lemma DeliveringTurn(s: State, m: State, e: int, u: Unit, log: seq<D.Op>, r: State)
    requires Inv(m) && Does(m, e, u) && r == Run(m, StepsOf(e, u)) && e in r.executors && ExecutorOk(r, e)
    requires InStep(s, m, e, log) && !AfterRowLinked(D.PhaseOf(log).value)
    requires Follows(m, r, e, u) && InStep(s, r, e, log + OpsOf(u))
    requires OpsOf(u) != [] && AfterRowLinked(D.PhaseOf(log + OpsOf(u)).value)
    ensures Delivered(r, s.executors[e].task, s.executors[e].digested + D.AppendedBytes(log + OpsOf(u)))
  {
    if InHandler(r.executors[e].phase) {
      RaisedUnitDelivers(s, m, e, u, log, r);
    } else {
      LinkerDelivers(r, e);
    }
  }

  lemma UnlinkedTurn(s: State, m: State, e: int, u: Unit, log: seq<D.Op>, r: State)
    requires Inv(m) && Does(m, e, u) && r == Run(m, StepsOf(e, u)) && Inv(r)
    requires InStep(s, m, e, log) && !AfterRowLinked(D.PhaseOf(log).value)
    requires Follows(m, r, e, u) && InStep(s, r, e, log + OpsOf(u))
    ensures AsLogged(s, r, e, log + OpsOf(u))
  {
    if OpsOf(u) == [] {
      assert log + OpsOf(u) == log;
    } else if AfterRowLinked(D.PhaseOf(log + OpsOf(u)).value) {
      assert ExecutorOk(r, e);
      DeliveringTurn(s, m, e, u, log, r);
    }
  }

  lemma {:induction false} LinkedLogDelivers(s: State, e: int, turns: seq<Turn>)
    requires Reachable(s) && Alive(s, e) && s.executors[e].phase == Opened && Plays(s, e, turns)
    ensures AsLogged(s, Run(s, AllSteps(e, turns)), e, LogOf(turns))
    decreases |turns|
  {
    LogIsARun(s, e, turns);
    if turns != [] {
      var m, last, log := Run(s, AllSteps(e, Init(turns))), Last(turns), LogOf(Init(turns));
      var r := Run(s, AllSteps(e, turns));
      LogIsARun(s, e, Init(turns));
      LinkedLogDelivers(s, e, Init(turns));
      ReachableInv(m);
      ReachableInv(r);
      LastTurn(s, e, turns);
      if AfterRowLinked(D.PhaseOf(log).value) {
        DeliveredTurn(s, m, e, last, log, r);
      } else {
        ForeignStepsLeave(m, last.others, e);
        UnitFollows(Run(m, last.others), e, last.unit);
        UnlinkedTurn(s, Run(m, last.others), e, last.unit, log, r);
      }
    }
  }

  /**
   So a run whose log contains the commit of the link row leaves, whatever others did meanwhile, however that and later
   commits ended, and whatever the handler then did, a link row for a target that holds exactly what was resumed and
   appended, of the size, digest and type that plan and row demand.
   */
  lemma CompleteLogDelivers(s: State, e: int, turns: seq<Turn>)
    requires Reachable(s) && Alive(s, e) && s.executors[e].phase == Opened && Plays(s, e, turns)
    requires D.PhaseOf(LogOf(turns)).Some? && AfterRowLinked(D.PhaseOf(LogOf(turns)).value)
    ensures var r := Run(s, AllSteps(e, turns));
            var t := s.executors[e].task;
            var content := s.executors[e].digested + D.AppendedBytes(LogOf(turns));
            && t in r.links && t in r.tasks && t in r.facts
            && r.links[t] == LinkRow(r.tasks[t].asset, r.tasks[t].target, r.tasks[t].mimeType, |content|,
                                     Sha256(content))
            && r.tasks[t].target in r.files.media && r.files.media[r.tasks[t].target] in r.files.data
            && r.files.data[r.files.media[r.tasks[t].target]] == content
            && MeetsPlan(r.facts[t], content) && Sniffed(r, content) == Some(r.tasks[t].mimeType)
  {
    LinkedLogDelivers(s, e, turns);
  }

  // ---------------------------------------------------------------- what the handler does

  /** A run that has linked is settled as unknown or cancelled, its file is not touched, and only it is marked. */
  ghost predicate CleansAsLogged(r: State, e: int, log: seq<D.Op>, c: D.Cleanup) {
    && Alive(r, e) && D.PhaseOf(log).Some?
    && (c != D.UNTOUCHED ==> InHandler(r.executors[e].phase))
    && (r.executors[e].phase.Clearing? ==> !r.executors[e].published)
    && (if D.PastLink(D.PhaseOf(log).value)
        then (c.settled.Some? ==> c.settled.value in {Cancelled, OutcomeUnknown}) && !c.discarded && !c.forgot
        else !c.markedUnknown)
  }

  lemma CleansInTurn(s: State, m: State, e: int, turns: seq<Turn>, r: State)
    requires turns != [] && InStep(s, m, e, LogOf(Init(turns))) && Does(m, e, Last(turns).unit)
    requires CleansAsLogged(m, e, LogOf(Init(turns)), CleanupOf(Init(turns)))
    requires Follows(m, r, e, Last(turns).unit) && InStep(s, r, e, LogOf(turns))
    ensures CleansAsLogged(r, e, LogOf(turns), CleanupOf(turns))
  {
    var log, u := LogOf(Init(turns)), Last(turns).unit;
    assert OpsOf(u) == [] ==> log + OpsOf(u) == log;
  }

  /**
   What the handler does to row and file in a whole run agrees with the log, whatever others do in between: a run that
   has linked its target is never settled as failed and loses no file, and no other run is marked as unverified.
   */
  lemma {:induction false} CleanupFollowsTheLog(s: State, e: int, turns: seq<Turn>)
    requires Reachable(s) && Alive(s, e) && s.executors[e].phase == Opened && Plays(s, e, turns)
    ensures CleansAsLogged(Run(s, AllSteps(e, turns)), e, LogOf(turns), CleanupOf(turns))
    decreases |turns|
  {
    LogIsARun(s, e, turns);
    if turns != [] {
      var m, last := Run(s, AllSteps(e, Init(turns))), Last(turns);
      LogIsARun(s, e, Init(turns));
      CleanupFollowsTheLog(s, e, Init(turns));
      ReachableInv(m);
      LastTurn(s, e, turns);
      ForeignStepsLeave(m, last.others, e);
      UnitFollows(Run(m, last.others), e, last.unit);
      CleansInTurn(s, Run(m, last.others), e, turns, Run(s, AllSteps(e, turns)));
    }
  }
}
