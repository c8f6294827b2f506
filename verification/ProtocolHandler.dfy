/** The exception handler of a run is not fenced: what that of a superseded run does to the run that holds the lease. */
module ProtocolHandler {
  import opened Basics
  import opened Tasks
  import opened Transfer
  import opened Protocol
  import opened ProtocolInvariant
  import opened ProtocolFrames
  import opened ProtocolShapes
  import opened ProtocolSteps
  import opened ProtocolTheorems
  import opened ProtocolLimits
  import opened ProtocolBars
  import opened ProtocolRecovery

  /** The lease of a task is held by run d, which is receiving. */
  ghost predicate HeldBy(s: State, d: int) {
    && Alive(s, d) && s.executors[d].phase.Streaming?
    && HoldsLease(RowOf(s, d), s.executors[d].owner, s.executors[d].generation, s.now)
  }

  /** Another run of the task of d, which has lost its lease and is in its handler. */
  ghost predicate SupersededBeside(s: State, e: int, d: int) {
    && Alive(s, e) && Alive(s, d) && s.executors[e].task == s.executors[d].task
    && s.executors[e].phase.Failing? && !Current(s, e)
  }

  /** The row of the task that e and d share is no longer running after some transition by the handler of e. */
  ghost predicate HandlerCanStop(s: State, e: int, d: int)
    requires Alive(s, d)
  {
    exists version :: StoppedIn(After(s, HandlerTransition(e, version)), s.executors[d].task)
  }

  ghost predicate StoppedIn(s: State, t: int) {
    t in s.tasks && s.tasks[t].state != Running
  }

  lemma AfterHandlerTransition(s: State, e: int, version: nat)
    ensures After(s, HandlerTransition(e, version))
         == if CanHandlerTransition(s, e, version) then DoHandlerTransition(s, e, version) else s
  {
  }

  lemma TransitionStops(s: State, e: int, version: nat)
    requires CanHandlerTransition(s, e, version)
    ensures StoppedIn(DoHandlerTransition(s, e, version), s.executors[e].task)
  {
  }

  lemma HandlerCodes(s: State, e: int, d: int, version: nat)
    requires HeldBy(s, d) && SupersededBeside(s, e, d)
    ensures CanHandlerTransition(s, e, version)
            ==> && s.fence.None? && !LeaseFailure(s.executors[e].phase.code)
                && s.executors[e].phase.code != PauseRaised && s.executors[e].phase.code != CancelRaised
    ensures && s.fence.None? && !LeaseFailure(s.executors[e].phase.code)
            && s.executors[e].phase.code != PauseRaised && s.executors[e].phase.code != CancelRaised
            ==> CanHandlerTransition(s, e, RowOf(s, e).version)
  {
  }

  /**
   A superseded run can take the row out of `running` under the run that holds its lease exactly when it failed with a
   code that is not about lease, pause or cancellation and no write transaction is open.
   */
  lemma SupersededHandlerStopsIff(s: State, e: int, d: int)
    requires Reachable(s) && HeldBy(s, d) && SupersededBeside(s, e, d)
    ensures HandlerCanStop(s, e, d)
            <==> s.fence.None? && s.executors[e].phase.code !in {LeaseLost, LeaseConflict, PauseRaised, CancelRaised}
  {
    var code := s.executors[e].phase.code;
    if s.fence.None? && code !in {LeaseLost, LeaseConflict, PauseRaised, CancelRaised} {
      HandlerCodes(s, e, d, RowOf(s, e).version);
      AfterHandlerTransition(s, e, RowOf(s, e).version);
      TransitionStops(s, e, RowOf(s, e).version);
      assert StoppedIn(After(s, HandlerTransition(e, RowOf(s, e).version)), s.executors[d].task);
    } else {
      forall version: nat
        ensures !StoppedIn(After(s, HandlerTransition(e, version)), s.executors[d].task)
      {
        HandlerCodes(s, e, d, version);
        AfterHandlerTransition(s, e, version);
      }
    }
  }

  lemma AfterHandlerUnlink(s: State, e: int)
    ensures After(s, HandlerUnlink(e)) == if CanHandlerUnlink(s, e) then DoHandlerUnlink(s, e) else s
  {
  }

  /** The file of d has its temporary name. */
  ghost predicate FileNamed(s: State, d: int) {
    && HasFile(s, d)
    && s.executors[d].temp.value.name in s.files.temp
    && s.files.temp[s.executors[d].temp.value.name] == Inode(s, d)
  }

  /**
   And it takes the name of the open file from that run exactly when it remembers a file of that name and has not linked
   anything, again unless it failed over lease or pause.
   */
  lemma SupersededHandlerUnlinksIff(s: State, e: int, d: int)
    requires Reachable(s) && HeldBy(s, d) && SupersededBeside(s, e, d) && FileNamed(s, d)
    ensures d in After(s, HandlerUnlink(e)).executors
    ensures !FileNamed(After(s, HandlerUnlink(e)), d)
            <==> && s.executors[e].phase.code !in {LeaseLost, LeaseConflict, PauseRaised} && !s.executors[e].published
                 && s.executors[e].temp.Some? && s.executors[e].temp.value.name == s.executors[d].temp.value.name
  {
    AfterHandlerUnlink(s, e);
    assert e != d;
  }

  lemma LeaselessIsBarred(s: State, r: State, d: int)
    requires HeldBy(s, d) && !s.executors[d].published && Alive(r, d) && r.executors[d] == s.executors[d]
    requires StoppedIn(r, s.executors[d].task)
    ensures Barred(r, d, LeaseGone)
  {
  }

  lemma UnlinkedIsBarred(s: State, e: int, d: int)
    requires HeldBy(s, d) && !s.executors[d].published && FileNamed(s, d) && Tidy(s) && CanHandlerUnlink(s, e) && e != d
    requires s.executors[e].temp.value.name == s.executors[d].temp.value.name && !Visible(s, Inode(s, d))
    ensures Barred(DoHandlerUnlink(s, e), d, FileNameless)
  {
  }

  /**
   Either way the run that holds the lease never publishes: it is stopped for good by a run that has lost the lease.
   */
  lemma StoppedHolderNeverPublishes(s: State, e: int, d: int, version: nat, steps: seq<Step>)
    requires Reachable(s) && HeldBy(s, d) && SupersededBeside(s, e, d)
    requires StoppedIn(After(s, HandlerTransition(e, version)), s.executors[d].task)
    ensures !PublishedIn(Run(After(s, HandlerTransition(e, version)), steps), d)
  {
    var r := After(s, HandlerTransition(e, version));
    ReachableInv(s);
    StepKeeps(s, HandlerTransition(e, version));
    OthersStandStill(s, r, HandlerTransition(e, version), d);
    assert ExecutorOk(s, d);
    LeaselessIsBarred(s, r, d);
    BarredForever(r, steps, d, LeaseGone);
  }

  /** The same holds when the name of its file is taken, as long as the file is not visible already. */
  lemma UnlinkedHolderNeverPublishes(s: State, e: int, d: int, steps: seq<Step>)
    requires Reachable(s) && HeldBy(s, d) && SupersededBeside(s, e, d) && FileNamed(s, d) && !Visible(s, Inode(s, d))
    requires !FileNamed(After(s, HandlerUnlink(e)), d)
    ensures !PublishedIn(Run(After(s, HandlerUnlink(e)), steps), d)
  {
    ReachableInv(s);
    ReachableTidy(s);
    AfterHandlerUnlink(s, e);
    assert ExecutorOk(s, d) && e != d;
    UnlinkedIsBarred(s, e, d);
    HandlerUnlinkKept(s, e);
    BarredForever(DoHandlerUnlink(s, e), steps, d, FileNameless);
  }

  lemma LinkedTransition(s: State, e: int, version: nat)
    requires e in s.executors && s.executors[e].published && Alive(s, e)
    ensures var r := After(s, HandlerTransition(e, version));
            && s.executors[e].task in r.tasks
            && (r.tasks[s.executors[e].task].state == Failed ==> RowOf(s, e).state == Failed)
  {
    AfterHandlerTransition(s, e, version);
  }

  /**
   Once a run has linked its target, its handler never again records a failure nor removes a name, in any continuation.
   */
  lemma LinkedRunIsNeverFailed(s: State, e: int, steps: seq<Step>, version: nat)
    requires Reachable(s) && e in s.executors && s.executors[e].published
    ensures var r := Run(s, steps);
            && Alive(r, e) && r.executors[e].task == s.executors[e].task
            && After(r, HandlerUnlink(e)) == r
            && var q := After(r, HandlerTransition(e, version));
               && s.executors[e].task in q.tasks
               && (q.tasks[s.executors[e].task].state == Failed ==> RowOf(r, e).state == Failed)
  {
    var r := Run(s, steps);
    ReachableInv(s);
    RunKeeps(s, steps);
    assert ExecutorOk(r, e);
    AfterHandlerUnlink(r, e);
    LinkedTransition(r, e, version);
  }
}
