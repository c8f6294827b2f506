/** The execution of a local task: what is committed when, and how a failure is classified. */
module LocalExecution {
  import opened Basics
  import opened Tasks

  datatype Provider = LocalFile | Integrity | Index | Recovery

  /** Whose link row stands at the task's path. */
  datatype LinkAtPath = NoLink | OwnLink | ForeignLink

  /** The committed facts of one local task. */
  datatype LocalTask = LocalTask(provider: Provider, row: TaskRow, snapshot: Option<Digest>, link: LinkAtPath)

  datatype ScannedFile = ScannedFile(snapshot: Digest, sha256: Digest, sizeBytes: nat)

  /** What another session commits on the row while the run is between two of its own transactions. */
  datatype Other =
    | Control(op: RowOp, at: int)   // pause, cancel, retry, resume, start
    | SecondStart(marked: Ending)   // a second start of a running row fails, and its handler marks the row

  /** What happens between the transactions of the run. */
  datatype Windows = Windows(
    afterBegin: seq<Other>,
    afterBeat: seq<Other>,
    afterLink: seq<Other>,
    afterVerify: seq<Other>,
    beforeHandler: seq<Other>,
    beforeMarking: seq<Other>)

  /**
   Everything the run does not decide itself: times, what it reads, what raises, how its commits end, and the others.
   */
  datatype Script = Script(
    resume: bool,
    slotFree: bool,
    owner: string,
    now: int,
    begun: Ending,
    scanned: Option<ScannedFile>,
    beatAt: int,
    beaten: Ending,
    refreshed: bool,
    assetMatches: bool,
    linked: Ending,
    verified: bool,
    completed: Ending,
    reread: bool,
    marked: Ending,
    others: Windows)

  const LEASE_SECONDS: nat := 30

  /** A part of the run either reaches its end or raises; both leave committed facts. */
  datatype Attempt = Reached(task: LocalTask) | Raised(task: LocalTask)

  function Commit(before: LocalTask, after: LocalTask, ending: Ending): Attempt {
    match ending
    case Acked => Reached(after)
    case RaisedBefore => Raised(before)
    case RaisedAfter => Raised(after)
  }

  /** The operations that the routes for control offer. */
  predicate IsControl(op: RowOp) {
    op.MoveTo? ==> op.target.Paused? || op.target.Queued? || op.target.Running?
  }

  /** The stages after which a failure leaves something to be examined. */
  predicate AfterWrite(stage: Stage) {
    stage.DbLinked? || stage.IntegrityChecked? || stage.IndexVerified? || stage.RecoveryRequired?
  }

  /** The handler marks a row that is still running; `written` is what it made of the stage it read before. */
  function Marked(t: LocalTask, written: bool, ending: Ending): LocalTask {
    if t.row.state != Running then t
    else
      var stage := if written then RecoveryRequired else ValidationFailed;
      var target := if written then OutcomeUnknown else Failed;
      var row := Transition(t.row.(stage := stage), target, t.row.version);
      if row.None? then t else Commit(t, t.(row := row.value), ending).task
  }

  function DisturbedOnce(t: LocalTask, other: Other): LocalTask {
    match other
    case Control(op, at) =>
      var row := ApplyRowOp(t.row, op, at);
      if IsControl(op) && row.Some? then t.(row := row.value) else t
    case SecondStart(marked) => Marked(t, AfterWrite(t.row.stage), marked)
  }

  function Disturbed(t: LocalTask, others: seq<Other>): LocalTask
    decreases |others|
  {
    if others == [] then t else Disturbed(DisturbedOnce(t, others[0]), others[1..])
  }

  /** The row queued again, if asked for, set running and leased. */
  function Started(row: TaskRow, s: Script): Option<TaskRow> {
    var queued := if s.resume then Transition(row, Queued, row.version) else Some(row);
    if queued.None? || !s.slotFree then None
    else
      var running := Transition(queued.value, Running, queued.value.version);
      if running.None? then None
      else AcquireLease(running.value, s.owner, running.value.version, s.now, LEASE_SECONDS)
  }

  function Begin(t: LocalTask, s: Script): Attempt {
    var row := Started(t.row, s);
    if row.None? then Raised(t) else Commit(t, t.(row := row.value), s.begun)
  }

  predicate HandlesFile(p: Provider) {
    p.LocalFile? || p.Integrity?
  }

  predicate FileMatches(t: LocalTask, file: ScannedFile) {
    && (t.provider.LocalFile? && t.snapshot.Some? ==> t.snapshot == Some(file.snapshot))
    && t.row.sha256 == Some(file.sha256) && t.row.expectedBytes == Some(file.sizeBytes)
  }

  function Check(t: LocalTask, s: Script): Attempt {
    if t.row.target != "" && s.scanned.Some? && FileMatches(t, s.scanned.value) then Reached(t) else Raised(t)
  }

  function Beat(t: LocalTask, s: Script, generation: nat, bytes: nat, stage: Stage): Attempt {
    var row := Heartbeat(t.row, s.owner, generation, s.beatAt, LEASE_SECONDS, bytes, stage);
    if row.None? then Raised(t) else Commit(t, t.(row := row.value), s.beaten)
  }

  /** The link row is inserted unless it is there, or the asset compared; the stage is committed with it. */
  function LinkUp(t: LocalTask, s: Script): Attempt {
    if !s.refreshed then Raised(t)
    else if t.provider.LocalFile? then
      if t.link.ForeignLink? then Raised(t)
      else Commit(t, t.(link := OwnLink, row := t.row.(stage := DbLinked)), s.linked)
    else if !s.assetMatches then Raised(t)
    else Commit(t, t.(row := t.row.(stage := IntegrityChecked)), s.linked)
  }

  function Reindex(t: LocalTask, s: Script): Attempt {
    if !s.refreshed then Raised(t) else Commit(t, t.(row := t.row.(stage := IndexVerified)), s.linked)
  }

  function Complete(t: LocalTask, s: Script): Attempt {
    var row := Transition(t.row.(stage := DurableVerified), Succeeded, t.row.version);
    if row.None? then Raised(t)
    else
      var done := Commit(t, t.(row := row.value), s.completed);
      if done.Reached? && !s.reread then Raised(done.task) else done
  }

  function WorkOnFile(t: LocalTask, s: Script, generation: nat): Attempt {
    var checked := Check(t, s);
    if checked.Raised? then checked
    else
      var beaten := Beat(t, s, generation, s.scanned.value.sizeBytes, IntegrityCheck);
      if beaten.Raised? then beaten else LinkUp(Disturbed(beaten.task, s.others.afterBeat), s)
  }

  function WorkOnIndex(t: LocalTask, s: Script, generation: nat): Attempt {
    var beaten := Beat(t, s, generation, t.row.bytesProcessed, Maintaining);
    if beaten.Raised? then beaten else Reindex(Disturbed(beaten.task, s.others.afterBeat), s)
  }

  /** Up to the commit of the link row, or of what stands in its place. */
  function Worked(t: LocalTask, s: Script): Attempt {
    var begun := Begin(t, s);
    if begun.Raised? then begun
    else
      var generation := begun.task.row.leaseGeneration;
      var started := Disturbed(begun.task, s.others.afterBegin);
      if HandlesFile(t.provider) then WorkOnFile(started, s, generation) else WorkOnIndex(started, s, generation)
  }

  /** The comparison with fresh reads; what it reads besides the stage is a parameter. */
  predicate Verifies(t: LocalTask, s: Script) {
    s.verified && (HandlesFile(t.provider) ==> t.row.stage.DbLinked? || t.row.stage.IntegrityChecked?)
  }

  function Delivered(t: LocalTask, s: Script): Attempt {
    var seen := Disturbed(t, s.others.afterLink);
    if !Verifies(seen, s) then Raised(seen) else Complete(Disturbed(seen, s.others.afterVerify), s)
  }

  /** Everything inside the source's `try`. */
  function TryTask(t: LocalTask, s: Script): Attempt {
    var worked := Worked(t, s);
    if worked.Raised? then worked else Delivered(worked.task, s)
  }

  /** The task as the handler first reads it, and as it stands when the handler marks it. */
  function Seen(tried: LocalTask, s: Script): LocalTask {
    Disturbed(tried, s.others.beforeHandler)
  }

  function AtMarking(tried: LocalTask, s: Script): LocalTask {
    Disturbed(Seen(tried, s), s.others.beforeMarking)
  }

  function RunLocal(t: LocalTask, s: Script): Attempt {
    if t.row.state == Succeeded then Reached(t)
    else
      var tried := TryTask(t, s);
      if tried.Reached? then tried
      else Raised(Marked(AtMarking(tried.task, s), AfterWrite(Seen(tried.task, s).row.stage), s.marked))
  }

  /** One run of a local task. Commits are the only changes to `task`. */
  class LocalTaskRunner {
    var task: LocalTask

    constructor (task: LocalTask)
      ensures this.task == task
    {
      this.task := task;
    }

    /** Commits; returns false when the commit raises. */
    method CommitTask(after: LocalTask, ending: Ending) returns (ok: bool)
      modifies this
      ensures Commit(old(task), after, ending) == if ok then Reached(task) else Raised(task)
    {
      if !ending.RaisedBefore? {
        task := after;
      }
      ok := ending.Acked?;
    }

    /** Other sessions commit on the row. */
    method LetOthers(others: seq<Other>)
      modifies this
      ensures task == Disturbed(old(task), others)
    {
      var i := 0;
      while i < |others|
        invariant 0 <= i <= |others|
        invariant Disturbed(task, others[i..]) == Disturbed(old(task), others)
      {
        task := DisturbedOnce(task, others[i]);
        assert others[i..][1..] == others[i + 1..];
        i := i + 1;
      }
    }

    method MarkUnknown(s: Script)
      modifies this
      ensures task == Marked(Disturbed(old(task), s.others.beforeMarking), true, s.marked)
    {
      LetOthers(s.others.beforeMarking);
      if task.row.state == Running {
        var row := Transition(task.row.(stage := RecoveryRequired), OutcomeUnknown, task.row.version);
        if row.Some? {
          var _ := CommitTask(task.(row := row.value), s.marked);
        }
      }
    }

    method MarkPrewriteFailure(s: Script)
      modifies this
      ensures task == Marked(Disturbed(old(task), s.others.beforeMarking), false, s.marked)
    {
      LetOthers(s.others.beforeMarking);
      if task.row.state == Running {
        var row := Transition(task.row.(stage := ValidationFailed), Failed, task.row.version);
        if row.Some? {
          var _ := CommitTask(task.(row := row.value), s.marked);
        }
      }
    }

    method TryFile(s: Script, generation: nat) returns (ok: bool)
      modifies this
      ensures WorkOnFile(old(task), s, generation) == if ok then Reached(task) else Raised(task)
    {
      if task.row.target == "" || s.scanned.None? || !FileMatches(task, s.scanned.value) {
        return false;
      }
      var row := Heartbeat(task.row, s.owner, generation, s.beatAt, LEASE_SECONDS, s.scanned.value.sizeBytes,
                           IntegrityCheck);
      if row.None? {
        return false;
      }
      ok := CommitTask(task.(row := row.value), s.beaten);
      if !ok {
        return;
      }
      LetOthers(s.others.afterBeat);
      if !s.refreshed {
        return false;
      }
      var after := task;
      if task.provider.LocalFile? {
        if task.link.ForeignLink? {
          return false;
        }
        if task.link.NoLink? {
          after := after.(link := OwnLink);
        }
        after := after.(row := after.row.(stage := DbLinked));
      } else {
        if !s.assetMatches {
          return false;
        }
        after := after.(row := after.row.(stage := IntegrityChecked));
      }
      ok := CommitTask(after, s.linked);
    }

    method TryIndex(s: Script, generation: nat) returns (ok: bool)
      modifies this
      ensures WorkOnIndex(old(task), s, generation) == if ok then Reached(task) else Raised(task)
    {
      var row := Heartbeat(task.row, s.owner, generation, s.beatAt, LEASE_SECONDS, task.row.bytesProcessed,
                           Maintaining);
      if row.None? {
        return false;
      }
      ok := CommitTask(task.(row := row.value), s.beaten);
      if !ok {
        return;
      }
      LetOthers(s.others.afterBeat);
      if !s.refreshed {
        return false;
      }
      ok := CommitTask(task.(row := task.row.(stage := IndexVerified)), s.linked);
    }

    method Try(s: Script) returns (ok: bool)
      modifies this
      ensures TryTask(old(task), s) == if ok then Reached(task) else Raised(task)
    {
      var row := Started(task.row, s);
      if row.None? {
        return false;
      }
      ok := CommitTask(task.(row := row.value), s.begun);
      if !ok {
        return;
      }
      var generation := task.row.leaseGeneration;
      OthersFollow(task, s.others.afterBegin);
      LetOthers(s.others.afterBegin);
      if HandlesFile(task.provider) {
        ok := TryFile(s, generation);
      } else {
        ok := TryIndex(s, generation);
      }
      if !ok {
        return;
      }
      LetOthers(s.others.afterLink);
      if !s.verified || (HandlesFile(task.provider) && !task.row.stage.DbLinked? && !task.row.stage.IntegrityChecked?) {
        return false;
      }
      LetOthers(s.others.afterVerify);
      row := Transition(task.row.(stage := DurableVerified), Succeeded, task.row.version);
      if row.None? {
        return false;
      }
      ok := CommitTask(task.(row := row.value), s.completed);
      ok := ok && s.reread;
    }

    method Execute(s: Script) returns (ok: bool)
      modifies this
      ensures RunLocal(old(task), s) == if ok then Reached(task) else Raised(task)
    {
      if task.row.state == Succeeded {
        return true;
      }
      ok := Try(s);
      if !ok {
        LetOthers(s.others.beforeHandler);
        if AfterWrite(task.row.stage) {
          MarkUnknown(s);
        } else {
          MarkPrewriteFailure(s);
        }
      }
    }
  }

  // ---------------------------------------------------------------- what others can do

  /** Others keep what the task is, its link and the terminal states; only a second start records a failure. */
  ghost predicate Follows(t: LocalTask, r: LocalTask) {
    && r.provider == t.provider && r.snapshot == t.snapshot && r.link == t.link
    && r.row.target == t.row.target && r.row.sha256 == t.row.sha256 && r.row.expectedBytes == t.row.expectedBytes
    && (Terminal(t.row.state) ==> r.row == t.row)
    && (t.row.state == Cancelling ==> r.row.state == Cancelling || r.row.state == Cancelled)
    && (AfterWrite(t.row.stage) ==> AfterWrite(r.row.stage) && (r.row.state == Failed ==> t.row.state == Failed))
    && (r.row.stage == t.row.stage || r.row.stage == ValidationFailed || r.row.stage == RecoveryRequired)
  }

  lemma {:induction false} OthersFollow(t: LocalTask, others: seq<Other>)
    ensures Follows(t, Disturbed(t, others))
    decreases |others|
  {
    if others != [] {
      assert Follows(t, DisturbedOnce(t, others[0]));
      OthersFollow(DisturbedOnce(t, others[0]), others[1..]);
    }
  }

  /** Sessions that only pause, cancel, retry, resume or start a row that is not running never record a failure. */
  lemma {:induction false} ControlNeverFails(t: LocalTask, others: seq<Other>)
    requires forall o :: o in others ==> o.Control?
    ensures Disturbed(t, others).row.state == Failed ==> t.row.state == Failed
    ensures Disturbed(t, others).row.stage == t.row.stage
    decreases |others|
  {
    if others != [] {
      ControlNeverFails(DisturbedOnce(t, others[0]), others[1..]);
    }
  }

  // ---------------------------------------------------------------- what the outcome says

  /** The run gets to its link commit, and that takes effect. */
  predicate CommitsLink(t: LocalTask, s: Script) {
    && t.row.state != Succeeded && t.provider.LocalFile? && Begin(t, s).Reached?
    && var started := Disturbed(Begin(t, s).task, s.others.afterBegin);
       && Check(started, s).Reached?
       && var beaten := Beat(started, s, Begin(t, s).task.row.leaseGeneration, s.scanned.value.sizeBytes,
                             IntegrityCheck);
          && beaten.Reached? && s.refreshed && !Disturbed(beaten.task, s.others.afterBeat).link.ForeignLink?
          && !s.linked.RaisedBefore?
  }

  lemma LinkCommit(t: LocalTask, s: Script)
    requires CommitsLink(t, s)
    ensures Worked(t, s).task.link == OwnLink && Worked(t, s).task.row.stage == DbLinked
    ensures Worked(t, s).Reached? <==> s.linked.Acked?
  {
    OthersFollow(Begin(t, s).task, s.others.afterBegin);
    var started := Disturbed(Begin(t, s).task, s.others.afterBegin);
    var generation := Begin(t, s).task.row.leaseGeneration;
    OthersFollow(Beat(started, s, generation, s.scanned.value.sizeBytes, IntegrityCheck).task, s.others.afterBeat);
  }

  /** A run that starts without its link row and ends with it has committed it itself. */
  lemma LinkIsOwnCommit(t: LocalTask, s: Script)
    requires t.link != OwnLink && RunLocal(t, s).task.link == OwnLink
    ensures CommitsLink(t, s)
  {
    WorkedLink(t, s);
    var worked := Worked(t, s).task;
    DeliveredLink(worked, s);
    var tried := TryTask(t, s);
    OthersFollow(tried.task, s.others.beforeHandler);
    OthersFollow(Seen(tried.task, s), s.others.beforeMarking);
  }

  lemma WorkedLink(t: LocalTask, s: Script)
    requires t.row.state != Succeeded
    ensures Worked(t, s).task.link == t.link || (Worked(t, s).task.link == OwnLink && CommitsLink(t, s))
  {
    if Begin(t, s).Reached? {
      OthersFollow(Begin(t, s).task, s.others.afterBegin);
      var started := Disturbed(Begin(t, s).task, s.others.afterBegin);
      var generation := Begin(t, s).task.row.leaseGeneration;
      if Check(started, s).Reached? {
        OthersFollow(Beat(started, s, generation, s.scanned.value.sizeBytes, IntegrityCheck).task, s.others.afterBeat);
      }
      OthersFollow(Beat(started, s, generation, started.row.bytesProcessed, Maintaining).task, s.others.afterBeat);
    }
  }

  lemma DeliveredLink(t: LocalTask, s: Script)
    ensures Delivered(t, s).task.link == t.link
  {
    OthersFollow(t, s.others.afterLink);
    OthersFollow(Disturbed(t, s.others.afterLink), s.others.afterVerify);
  }

  /** The row as the final transition finds it, when the run gets that far. */
  function AtFinal(worked: LocalTask, s: Script): LocalTask {
    Disturbed(Disturbed(worked, s.others.afterLink), s.others.afterVerify)
  }

  /** The final transition takes effect. */
  predicate Finishes(t: LocalTask, s: Script) {
    && Worked(t, s).Reached? && Verifies(Disturbed(Worked(t, s).task, s.others.afterLink), s)
    && AtFinal(Worked(t, s).task, s).row.state == Running && !s.completed.RaisedBefore?
  }

  lemma DeliveredStates(t: LocalTask, s: Script)
    requires AfterWrite(t.row.stage)
    ensures var r := Delivered(t, s).task;
            var finishes := && Verifies(Disturbed(t, s.others.afterLink), s) && AtFinal(t, s).row.state == Running
                            && !s.completed.RaisedBefore?;
            && (finishes ==> r.row.state == Succeeded)
            && (!finishes ==> AfterWrite(r.row.stage) && (r.row.state == Failed ==> t.row.state == Failed))
            && (!finishes ==> Delivered(t, s).Raised?)
            && (!finishes && r.row.state == Succeeded ==> t.row.state == Succeeded)
  {
    OthersFollow(t, s.others.afterLink);
    OthersFollow(Disturbed(t, s.others.afterLink), s.others.afterVerify);
    OthersNeverSucceed(t, s.others.afterLink);
    OthersNeverSucceed(Disturbed(t, s.others.afterLink), s.others.afterVerify);
  }

  lemma {:induction false} OthersNeverSucceed(t: LocalTask, others: seq<Other>)
    ensures Disturbed(t, others).row.state == Succeeded ==> t.row.state == Succeeded
    decreases |others|
  {
    if others != [] {
      OthersNeverSucceed(DisturbedOnce(t, others[0]), others[1..]);
    }
  }

  /**
   A run that commits its link row ends in success or as unknown exactly when the row is still running at the final
   transition or at the marking and that commit takes effect, or another session has marked the row unknown before.
   */
  lemma LinkCommittedEndsWellIff(t: LocalTask, s: Script)
    requires CommitsLink(t, s)
    ensures var row := RunLocal(t, s).task.row;
            var marking := AtMarking(TryTask(t, s).task, s).row;
            row.state == Succeeded || row.state == OutcomeUnknown
            <==> || Finishes(t, s)
                 || (marking.state == Running && !s.marked.RaisedBefore?)
                 || marking.state == OutcomeUnknown
  {
    LinkCommit(t, s);
    var worked := Worked(t, s).task;
    LinkCommitIsNotFinal(t, s);
    DeliveredStates(worked, s);
    var tried := TryTask(t, s).task;
    OthersFollow(tried, s.others.beforeHandler);
    OthersFollow(Seen(tried, s), s.others.beforeMarking);
    OthersNeverSucceed(tried, s.others.beforeHandler);
    OthersNeverSucceed(Seen(tried, s), s.others.beforeMarking);
  }

  lemma LinkCommitIsNotFinal(t: LocalTask, s: Script)
    requires CommitsLink(t, s)
    ensures Worked(t, s).task.row.state != Succeeded
  {
    var started := Disturbed(Begin(t, s).task, s.others.afterBegin);
    var beaten := Beat(started, s, Begin(t, s).task.row.leaseGeneration, s.scanned.value.sizeBytes, IntegrityCheck);
    OthersNeverSucceed(beaten.task, s.others.afterBeat);
  }

  /** Nobody else touches the row during the run. */
  predicate Undisturbed(s: Script) {
    s.others == Windows([], [], [], [], [], [])
  }

  /** So alone it ends in success or as unknown, whichever commit raises, unless the marking itself is lost. */
  lemma LinkCommittedIsNeverFailure(t: LocalTask, s: Script)
    requires t.link != OwnLink && RunLocal(t, s).task.link == OwnLink && Undisturbed(s)
    ensures var row := RunLocal(t, s).task.row;
            row.state == Succeeded || row.state == OutcomeUnknown || (row.state == Running && s.marked.RaisedBefore?)
  {
    LinkIsOwnCommit(t, s);
    LinkCommit(t, s);
    AloneIsRunning(t, s);
    DeliveredAlone(Worked(t, s).task, s);
  }

  lemma AloneIsRunning(t: LocalTask, s: Script)
    requires CommitsLink(t, s) && Undisturbed(s)
    ensures Worked(t, s).task.row.state == Running
  {
  }

  lemma DeliveredAlone(t: LocalTask, s: Script)
    requires Undisturbed(s) && t.row.state == Running && t.row.stage == DbLinked
    ensures var row := Delivered(t, s).task.row;
            row.state == Succeeded || (row.state == Running && row.stage == DbLinked)
    ensures Delivered(t, s).Reached? ==> Delivered(t, s).task.row.state == Succeeded
  {
  }

  /** The row when the link row is committed with it. */
  function AtLink(t: LocalTask, s: Script): LocalTask
    requires CommitsLink(t, s)
  {
    var started := Disturbed(Begin(t, s).task, s.others.afterBegin);
    Disturbed(Beat(started, s, Begin(t, s).task.row.leaseGeneration, s.scanned.value.sizeBytes, IntegrityCheck).task,
              s.others.afterBeat)
  }

  lemma FailureWasThereAtLink(t: LocalTask, s: Script)
    requires CommitsLink(t, s) && RunLocal(t, s).task.row.state == Failed
    ensures AtLink(t, s).row.state == Failed
  {
    LinkCommit(t, s);
    DeliveredStates(Worked(t, s).task, s);
    var tried := TryTask(t, s).task;
    OthersFollow(tried, s.others.beforeHandler);
    OthersFollow(Seen(tried, s), s.others.beforeMarking);
  }

  /**
   A run that starts without a link row and is recorded as failed has committed none, unless a second start of the same
   task has recorded the failure between its heartbeat and its link commit.
   */
  lemma FailureMeansNothingLinked(t: LocalTask, s: Script)
    requires t.link != OwnLink && RunLocal(t, s).task.row.state == Failed
    ensures RunLocal(t, s).task.link == t.link || exists o :: o in s.others.afterBeat && o.SecondStart?
  {
    if RunLocal(t, s).task.link == OwnLink {
      LinkIsOwnCommit(t, s);
      FailureWasThereAtLink(t, s);
      var started := Disturbed(Begin(t, s).task, s.others.afterBegin);
      if forall o :: o in s.others.afterBeat ==> o.Control? {
        ControlNeverFails(Beat(started, s, Begin(t, s).task.row.leaseGeneration, s.scanned.value.sizeBytes,
                               IntegrityCheck).task,
                          s.others.afterBeat);
      }
    } else {
      LinkOnlyBecomesOwn(t, s);
    }
  }

  lemma LinkOnlyBecomesOwn(t: LocalTask, s: Script)
    ensures RunLocal(t, s).task.link == t.link || RunLocal(t, s).task.link == OwnLink
  {
    if t.row.state != Succeeded {
      WorkedLink(t, s);
    }
    DeliveredLink(Worked(t, s).task, s);
    var tried := TryTask(t, s).task;
    OthersFollow(tried, s.others.beforeHandler);
    OthersFollow(Seen(tried, s), s.others.beforeMarking);
  }

  /** A normal return of an import: the row is final, the lease gone, the link row committed, whatever others did. */
  lemma ReturnMeansDelivered(t: LocalTask, s: Script)
    requires t.row.state != Succeeded && RunLocal(t, s).Reached?
    ensures var done := RunLocal(t, s).task;
            && done.row.state == Succeeded && done.row.stage == DurableVerified
            && done.row.leaseOwner.None? && done.row.leaseExpiresAt.None?
            && (t.provider.LocalFile? ==> done.link == OwnLink && s.scanned.Some? && FileMatches(t, s.scanned.value))
  {
    DeliveredLink(Worked(t, s).task, s);
    if t.provider.LocalFile? {
      OthersFollow(Begin(t, s).task, s.others.afterBegin);
      ReachedMeansCommitted(t, s);
      LinkCommit(t, s);
    }
  }

  lemma ReachedMeansCommitted(t: LocalTask, s: Script)
    requires t.row.state != Succeeded && t.provider.LocalFile? && Worked(t, s).Reached?
    ensures CommitsLink(t, s)
  {
    OthersFollow(Begin(t, s).task, s.others.afterBegin);
    var started := Disturbed(Begin(t, s).task, s.others.afterBegin);
    if Check(started, s).Reached? {
      var beaten := Beat(started, s, Begin(t, s).task.row.leaseGeneration, s.scanned.value.sizeBytes, IntegrityCheck);
      OthersFollow(beaten.task, s.others.afterBeat);
    }
  }

  // ---------------------------------------------------------------- a linked task can still fail

  /** States from which a run can get going. */
  predicate Startable(state: TaskState) {
    state == Queued || CanTransition(state, Queued)
  }

  /** The row has what the file is compared with. */
  predicate Checkable(t: LocalTask) {
    !HandlesFile(t.provider) || (t.row.target != "" && t.row.sha256.Some? && t.row.expectedBytes.Some?)
  }

  const ALONE: Windows := Windows([], [], [], [], [], [])

  /** A run that gets going and then finds the index unavailable. */
  function Stumbling(t: LocalTask): Script {
    var now := if t.row.leaseExpiresAt.Some? then t.row.leaseExpiresAt.value else 0;
    var sha256 := if t.row.sha256.Some? then t.row.sha256.value else Sha256([]);
    var file := ScannedFile(if t.snapshot.Some? then t.snapshot.value else sha256, sha256,
                            if t.row.expectedBytes.Some? then t.row.expectedBytes.value else 0);
    Script(t.row.state != Queued, true, "local", now, Acked, Some(file), now, Acked, false, false, Acked, false, Acked,
           false, Acked, ALONE)
  }

  /** A run that gets as far as its link commit while another session does something after its heartbeat. */
  function Overtaken(t: LocalTask, other: Other): Script {
    Stumbling(t).(refreshed := true, others := ALONE.(afterBeat := [other]))
  }

  /** Recorded already, running for somebody else before any write, or startable up to the heartbeat. */
  predicate CanEndFailed(t: LocalTask) {
    || t.row.state == Failed
    || (t.row.state == Running && !AfterWrite(t.row.stage))
    || (Startable(t.row.state) && (Checkable(t) || !AfterWrite(t.row.stage)))
  }

  /**
   Starting a task that is already running: if the row still is when the handler marks it, the handler records the
   failure of the run in progress, or its outcome as unknown once that has written; else it changes nothing.
   */
  lemma SecondStartFailsTheFirst(t: LocalTask, s: Script)
    requires t.row.state == Running
    ensures RunLocal(t, s).Raised?
    ensures var found, r := AtMarking(t, s), RunLocal(t, s).task;
            && (found.row.state != Running ==> r == found)
            && (found.row.state == Running ==>
                  && (r.row.state == Failed <==> !AfterWrite(Seen(t, s).row.stage) && !s.marked.RaisedBefore?)
                  && (r.row.state == OutcomeUnknown <==> AfterWrite(Seen(t, s).row.stage) && !s.marked.RaisedBefore?))
  {
    assert Started(t.row, s).None?;
  }

  lemma StumblingStarts(t: LocalTask)
    requires Sound(t.row) && Startable(t.row.state)
    ensures Started(t.row, Stumbling(t)).Some?
    ensures var row := Started(t.row, Stumbling(t)).value;
            && HoldsLease(row, "local", row.leaseGeneration, Stumbling(t).beatAt) && row.stage == t.row.stage
            && row.target == t.row.target && row.sha256 == t.row.sha256 && row.expectedBytes == t.row.expectedBytes
  {
  }

  lemma StumblingFails(t: LocalTask)
    requires Sound(t.row) && Startable(t.row.state) && (Checkable(t) || !AfterWrite(t.row.stage))
    ensures RunLocal(t, Stumbling(t)).task.row.state == Failed && RunLocal(t, Stumbling(t)).task.link == t.link
    ensures RunLocal(t, Stumbling(t)).task.row.stage == ValidationFailed
  {
    StumblingStumbles(t);
  }

  lemma StumblingStumbles(t: LocalTask)
    requires Sound(t.row) && Startable(t.row.state) && (Checkable(t) || !AfterWrite(t.row.stage))
    ensures TryTask(t, Stumbling(t)).Raised?
    ensures var r := TryTask(t, Stumbling(t)).task;
            r.row.state == Running && !AfterWrite(r.row.stage) && r.link == t.link
  {
    StumblingStarts(t);
  }

  lemma OvertakenLinks(t: LocalTask, other: Other)
    requires Sound(t.row) && t.link == NoLink && t.provider.LocalFile? && Startable(t.row.state) && Checkable(t)
    ensures Started(t.row, Stumbling(t)).Some?
    ensures var s := Overtaken(t, other);
            var beaten := t.(row := Started(t.row,
                                            Stumbling(t)).value.(leaseExpiresAt := Some(s.beatAt + LEASE_SECONDS),
                                                                        bytesProcessed := s.scanned.value.sizeBytes,
                                                                        stage := IntegrityCheck));
            var left := DisturbedOnce(beaten, other);
            var r := RunLocal(t, s).task;
            && r.link == OwnLink
            && (left.row.state != Running ==> r.row == left.row.(stage := DbLinked))
  {
    StumblingStarts(t);
    var s := Overtaken(t, other);
    var beaten := t.(row := Started(t.row, Stumbling(t)).value.(leaseExpiresAt := Some(s.beatAt + LEASE_SECONDS),
                                                                bytesProcessed := s.scanned.value.sizeBytes,
                                                                stage := IntegrityCheck));
    assert Disturbed(beaten, [other]) == DisturbedOnce(beaten, other);
    OthersFollow(beaten, [other]);
  }

  /** The overtaken run has committed the link row, and leaves the row in this state. */
  ghost predicate LeftLinked(t: LocalTask, other: Other, state: TaskState) {
    var r := RunLocal(t, Overtaken(t, other)).task;
    r.link == OwnLink && r.row.state == state && r.row.stage == DbLinked
  }

  lemma PausedRunLinks(t: LocalTask, version: nat)
    requires Sound(t.row) && t.link == NoLink && t.provider.LocalFile? && Startable(t.row.state) && Checkable(t)
    requires Started(t.row, Stumbling(t)).Some? && version == Started(t.row, Stumbling(t)).value.version
    ensures LeftLinked(t, Control(MoveTo(Paused, version), 0), Paused)
  {
    OvertakenLinks(t, Control(MoveTo(Paused, version), 0));
  }

  lemma CancelledRunLinks(t: LocalTask, version: nat)
    requires Sound(t.row) && t.link == NoLink && t.provider.LocalFile? && Startable(t.row.state) && Checkable(t)
    requires Started(t.row, Stumbling(t)).Some? && version == Started(t.row, Stumbling(t)).value.version
    ensures LeftLinked(t, Control(CancelRequested(version), 0), Cancelling)
  {
    OvertakenLinks(t, Control(CancelRequested(version), 0));
  }

  lemma TwiceStartedRunLinks(t: LocalTask)
    requires Sound(t.row) && t.link == NoLink && t.provider.LocalFile? && Startable(t.row.state) && Checkable(t)
    ensures LeftLinked(t, SecondStart(Acked), Failed)
  {
    OvertakenLinks(t, SecondStart(Acked));
  }

  /**
   What one operation between heartbeat and link commit does to the first run of an import: the link row is committed,
   and the row is left paused, being cancelled, or, after a second start, failed.
   */
  lemma OvertakenRunLinks(t: LocalTask)
    requires Sound(t.row) && t.link == NoLink && t.provider.LocalFile? && Startable(t.row.state) && Checkable(t)
    ensures exists other: Other :: other.Control? && LeftLinked(t, other, Paused)
    ensures exists other: Other :: other.Control? && LeftLinked(t, other, Cancelling)
    ensures LeftLinked(t, SecondStart(Acked), Failed)
  {
    StumblingStarts(t);
    var version := Started(t.row, Stumbling(t)).value.version;
    PausedRunLinks(t, version);
    CancelledRunLinks(t, version);
    TwiceStartedRunLinks(t);
  }

  lemma FailedRunWasStartable(t: LocalTask, s: Script)
    requires RunLocal(t, s).task.row.state == Failed
    ensures CanEndFailed(t)
  {
    if t.row.state != Succeeded {
      var tried := TryTask(t, s).task;
      OthersFollow(tried, s.others.beforeHandler);
      OthersFollow(Seen(tried, s), s.others.beforeMarking);
      EarlyFailureWasStartable(t, s);
    }
  }

  lemma EarlyFailureWasStartable(t: LocalTask, s: Script)
    requires t.row.state != Succeeded
    requires var tried := TryTask(t, s).task;
             && (tried.row.state == Failed || !AfterWrite(tried.row.stage))
             && !Terminal(tried.row.state) && tried.row.state != Cancelling
    ensures CanEndFailed(t)
  {
    if Begin(t, s).Reached? {
      OthersFollow(Begin(t, s).task, s.others.afterBegin);
    }
  }

  /**
   A link row and a recorded failure can stand together exactly in two ways. The link row was there before, and a run of
   the task can get past the point where the heartbeat moves the stage back, or is begun while another has not written.
   Or the run commits the link row itself after a second start of the same task has recorded the failure.
   */
  lemma LinkedTaskCanStillFail(t: LocalTask)
    requires Sound(t.row)
    ensures (exists s :: RunLocal(t, s).task.row.state == Failed && RunLocal(t, s).task.link == OwnLink)
            <==> || (t.link == OwnLink && CanEndFailed(t))
                 || (t.link == NoLink && t.provider.LocalFile? && Startable(t.row.state) && Checkable(t))
  {
    if t.link == OwnLink && CanEndFailed(t) {
      LinkedCanFail(t);
    } else if t.link == NoLink && t.provider.LocalFile? && Startable(t.row.state) && Checkable(t) {
      TwiceStartedRunLinks(t);
    }
    forall s | RunLocal(t, s).task.row.state == Failed && RunLocal(t, s).task.link == OwnLink
      ensures || (t.link == OwnLink && CanEndFailed(t))
              || (t.link == NoLink && t.provider.LocalFile? && Startable(t.row.state) && Checkable(t))
    {
      if t.link == OwnLink {
        FailedRunWasStartable(t, s);
      } else {
        LinkIsOwnCommit(t, s);
        CommitterWasStartable(t, s);
      }
    }
  }

  lemma LinkedCanFail(t: LocalTask)
    requires Sound(t.row) && t.link == OwnLink && CanEndFailed(t)
    ensures exists s :: RunLocal(t, s).task.row.state == Failed && RunLocal(t, s).task.link == OwnLink
  {
    var s := Stumbling(t);
    if Startable(t.row.state) && (Checkable(t) || !AfterWrite(t.row.stage)) {
      StumblingFails(t);
    } else if t.row.state == Failed {
      FailedStaysFailed(t, s.(resume := false));
    } else {
      SecondStartFailsTheFirst(t, s);
      assert RunLocal(t, s).task.link == OwnLink;
    }
  }

  lemma CommitterWasStartable(t: LocalTask, s: Script)
    requires CommitsLink(t, s) && t.link != OwnLink
    ensures t.link == NoLink && Startable(t.row.state) && Checkable(t)
  {
    OthersFollow(Begin(t, s).task, s.others.afterBegin);
    var started := Disturbed(Begin(t, s).task, s.others.afterBegin);
    var generation := Begin(t, s).task.row.leaseGeneration;
    OthersFollow(Beat(started, s, generation, s.scanned.value.sizeBytes, IntegrityCheck).task, s.others.afterBeat);
  }

  lemma FailedStaysFailed(t: LocalTask, s: Script)
    requires t.row.state == Failed && !s.resume && s.others == ALONE
    ensures RunLocal(t, s).task == t
  {
  }

  // ---------------------------------------------------------------- what the user is shown

  datatype Shown = Interrupted | Retryable | AsStored(state: TaskState)

  function EffectiveState(row: TaskRow, restarted: bool): Shown {
    if (row.state == Paused || row.state == Blocked) && restarted then Interrupted
    else if (row.state == Failed || row.state == Blocked)
            && !(row.stage.Published? || row.stage.DbLinked? || row.stage.IndexCoordinated?
                 || row.stage.DurableVerified? || row.stage.RecoveryRequired?)
    then Retryable
    else AsStored(row.state)
  }

  /**
   A first run is offered for a retry only when it was recorded as failed with nothing linked; and alone, a run that
   stopped is offered exactly when it was recorded as failed.
   */
  lemma RetryOfferedOnlyBeforeWriting(t: LocalTask, s: Script)
    requires t.row.state == Queued && Sound(t.row) && t.link == NoLink
    ensures var r := RunLocal(t, s).task;
            && (EffectiveState(r.row, false) == Retryable ==> r.row.state == Failed && r.link == NoLink)
            && (s.others == ALONE && r.row.state != Queued ==>
                (EffectiveState(r.row, false) == Retryable <==> r.row.state == Failed))
  {
    LinkOnlyBecomesOwn(t, s);
    if RunLocal(t, s).task.link == OwnLink {
      LinkIsOwnCommit(t, s);
      LinkedRunIsNotOffered(t, s);
    }
    NeverBlocked(t, s);
  }

  /** Once the link row is committed the stage says so, or that recovery is needed, or that all is done. */
  lemma LinkedRunIsNotOffered(t: LocalTask, s: Script)
    requires CommitsLink(t, s)
    ensures EffectiveState(RunLocal(t, s).task.row, false) != Retryable
  {
    LinkCommit(t, s);
    LinkCommitIsNotFinal(t, s);
    DeliveredSpeaks(Worked(t, s).task, s);
    MarkedSpeaks(TryTask(t, s).task, s);
  }

  lemma MarkedSpeaks(tried: LocalTask, s: Script)
    requires SpeaksOfLink(tried.row.stage) && (tried.row.stage.DurableVerified? ==> tried.row.state == Succeeded)
    ensures SpeaksOfLink(Marked(AtMarking(tried, s), AfterWrite(Seen(tried, s).row.stage), s.marked).row.stage)
  {
    StageAfterLink(tried, s.others.beforeHandler);
    StageAfterLink(Seen(tried, s), s.others.beforeMarking);
    OthersFollow(Seen(tried, s), s.others.beforeMarking);
  }

  lemma DeliveredSpeaks(t: LocalTask, s: Script)
    requires t.row.stage == DbLinked
    ensures var r := Delivered(t, s).task.row;
            SpeaksOfLink(r.stage) && (r.stage.DurableVerified? ==> r.state == Succeeded)
  {
    StageAfterLink(t, s.others.afterLink);
    StageAfterLink(Disturbed(t, s.others.afterLink), s.others.afterVerify);
  }

  predicate SpeaksOfLink(stage: Stage) {
    stage.DbLinked? || stage.RecoveryRequired? || stage.DurableVerified?
  }

  lemma {:induction false} StageAfterLink(t: LocalTask, others: seq<Other>)
    requires SpeaksOfLink(t.row.stage) && (t.row.stage.DurableVerified? ==> t.row.state == Succeeded)
    ensures SpeaksOfLink(Disturbed(t, others).row.stage)
    ensures Disturbed(t, others).row.stage.DurableVerified? ==> Disturbed(t, others).row.state == Succeeded
    decreases |others|
  {
    if others != [] {
      StageAfterLink(DisturbedOnce(t, others[0]), others[1..]);
    }
  }

  lemma {:induction false} OthersNeverBlock(t: LocalTask, others: seq<Other>)
    ensures Disturbed(t, others).row.state == Blocked ==> t.row.state == Blocked
    decreases |others|
  {
    if others != [] {
      OthersNeverBlock(DisturbedOnce(t, others[0]), others[1..]);
    }
  }

  lemma NeverBlocked(t: LocalTask, s: Script)
    requires t.row.state == Queued
    ensures RunLocal(t, s).task.row.state != Blocked
  {
    WorkedIsNotBlocked(t, s);
    OthersNeverBlock(Worked(t, s).task, s.others.afterLink);
    OthersNeverBlock(Disturbed(Worked(t, s).task, s.others.afterLink), s.others.afterVerify);
    var tried := TryTask(t, s).task;
    OthersNeverBlock(tried, s.others.beforeHandler);
    OthersNeverBlock(Seen(tried, s), s.others.beforeMarking);
  }

  lemma WorkedIsNotBlocked(t: LocalTask, s: Script)
    requires t.row.state == Queued
    ensures Worked(t, s).task.row.state != Blocked
  {
    if Begin(t, s).Reached? {
      OthersNeverBlock(Begin(t, s).task, s.others.afterBegin);
      var started := Disturbed(Begin(t, s).task, s.others.afterBegin);
      var generation := Begin(t, s).task.row.leaseGeneration;
      if Check(started, s).Reached? {
        OthersNeverBlock(Beat(started, s, generation, s.scanned.value.sizeBytes, IntegrityCheck).task,
                         s.others.afterBeat);
      }
      OthersNeverBlock(Beat(started, s, generation, started.row.bytesProcessed, Maintaining).task, s.others.afterBeat);
    }
  }

  /**
   A link row and the offer of a retry do come together: an import loses the acknowledgement of its link commit and then
   its marking, a restart blocks the row for review, and the next run, started from there, records its own early
   failure.
   */
  lemma LinkedTaskIsOfferedForRetry(t: LocalTask)
    requires Sound(t.row) && t.row.state == Queued && t.link == NoLink && t.provider.LocalFile? && Checkable(t)
    ensures var s := Stumbling(t).(refreshed := true, linked := RaisedAfter, marked := RaisedBefore);
            var left := RunLocal(t, s).task;
            && left.link == OwnLink && left.row.state == Running && left.row.stage == DbLinked
            && RecoveryTarget(left.row) == Blocked
            && var row := Transition(left.row, Blocked, left.row.version);
               && row.Some?
               && var again := RunLocal(left.(row := row.value), Stumbling(left.(row := row.value))).task;
                  again.link == OwnLink && again.row.state == Failed && EffectiveState(again.row, false) == Retryable
  {
    StumblingStarts(t);
    InterruptedLinkIsBlocked(t);
    var s := Stumbling(t).(refreshed := true, linked := RaisedAfter, marked := RaisedBefore);
    var left := RunLocal(t, s).task;
    StumblingFails(left.(row := Transition(left.row, Blocked, left.row.version).value));
  }

  lemma InterruptedLinkIsBlocked(t: LocalTask)
    requires Sound(t.row) && t.row.state == Queued && t.link == NoLink && t.provider.LocalFile? && Checkable(t)
    ensures var s := Stumbling(t).(refreshed := true, linked := RaisedAfter, marked := RaisedBefore);
            var left := RunLocal(t, s).task;
            && left.link == OwnLink && left.row.state == Running && left.row.stage == DbLinked
               && left.provider == t.provider
            && Checkable(left) && !left.row.cancelRequested
            && Transition(left.row, Blocked, left.row.version).Some?
            && Sound(Transition(left.row, Blocked, left.row.version).value)
  {
    StumblingStarts(t);
  }
}
