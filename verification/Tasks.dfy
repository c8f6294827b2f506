/** The persistent task row and the operations of PersistentTaskService on it. */
module Tasks {
  import opened Basics

  datatype TaskState =
    | Planned | AwaitingConfirmation | Queued | Running | Paused | Cancelling
    | Cancelled | Succeeded | Failed | Blocked | OutcomeUnknown

  /** The stages that the download and the local workflow write. */
  datatype Stage =
    | NotStarted | Downloading | Verified | Published | DbLinked | IndexCoordinated | DurableVerified
    | VerificationUnknown | LocalQueued | IntegrityCheck | IntegrityChecked | IndexVerified
    | ValidationFailed | RecoveryRequired | Maintaining

  /** What identifies the asset a task delivers. */
  datatype AssetKey = AssetKey(itemId: int, sourceId: Option<int>, providerKey: string, assetHash: Digest)

  datatype TaskRow = TaskRow(
    state: TaskState,
    version: nat,
    stage: Stage,
    bytesProcessed: nat,
    expectedBytes: Option<nat>,
    mimeType: string,
    sha256: Option<Digest>,
    cancelRequested: bool,
    leaseOwner: Option<string>,
    leaseGeneration: nat,
    leaseExpiresAt: Option<int>,
    asset: AssetKey,
    target: string)

  predicate Closed(state: TaskState) {
    state.Cancelled? || state.Succeeded? || state.Failed? || state.OutcomeUnknown?
  }

  /** The states that no transition leaves. */
  predicate Terminal(state: TaskState) {
    state.Cancelled? || state.Succeeded? || state.OutcomeUnknown?
  }

  predicate CanTransition(current: TaskState, target: TaskState) {
    match current
    case Planned => target.AwaitingConfirmation? || target.Queued? || target.Cancelled?
    case AwaitingConfirmation => target.Queued? || target.Cancelled?
    case Queued => target.Running? || target.Paused? || target.Cancelling? || target.Cancelled? || target.Blocked?
    case Running =>
      target.Paused? || target.Cancelling? || target.Succeeded? || target.Failed? || target.Blocked?
          || target.OutcomeUnknown?
    case Paused => target.Queued? || target.Cancelled?
    case Cancelling => target.Cancelled? || target.Failed? || target.OutcomeUnknown?
    case Failed => target.Queued? || target.Cancelled?
    case Blocked => target.Queued? || target.Cancelled?
    case Cancelled => false
    case Succeeded => false
    case OutcomeUnknown => false
  }

  predicate ClearsLease(target: TaskState) {
    target.Paused? || target.Blocked? || target.Queued? || Closed(target)
  }

  /** Compare-and-set on the version; None stands for the raised TaskTransitionError. */
  function Transition(row: TaskRow, target: TaskState, expectedVersion: nat): Option<TaskRow> {
    if row.version != expectedVersion || !CanTransition(row.state, target) then None
    else
      Some(row.(
        state := target,
        version := row.version + 1,
        leaseOwner := if ClearsLease(target) then None else row.leaseOwner,
        leaseExpiresAt := if ClearsLease(target) then None else row.leaseExpiresAt,
        cancelRequested := if target == Queued then false else row.cancelRequested))
  }

  function AcquireLease(row: TaskRow, owner: string, expectedVersion: nat, now: int, ttl: nat): Option<TaskRow> {
    if row.version == expectedVersion && row.state == Running && !row.cancelRequested && 5 <= ttl <= 300
       && (row.leaseExpiresAt.None? || row.leaseExpiresAt.value <= now || row.leaseOwner == Some(owner))
    then
      Some(row.(leaseOwner := Some(owner), leaseGeneration := row.leaseGeneration + 1,
                leaseExpiresAt := Some(now + ttl)))
    else None
  }

  /** The row is running under this owner and generation, is unexpired and is not being cancelled. */
  predicate HoldsLease(row: TaskRow, owner: string, generation: nat, now: int) {
    && row.state == Running
    && row.leaseOwner == Some(owner)
    && row.leaseGeneration == generation
    && row.leaseExpiresAt.Some? && now < row.leaseExpiresAt.value
    && !row.cancelRequested
  }

  function Heartbeat(row: TaskRow, owner: string, generation: nat, now: int, ttl: nat, bytes: nat,
                     stage: Stage): Option<TaskRow> {
    if HoldsLease(row, owner, generation, now) && 5 <= ttl <= 300 then
      Some(row.(leaseExpiresAt := Some(now + ttl), bytesProcessed := bytes, stage := stage))
    else None
  }

  function MarkVerificationUnknown(row: TaskRow, expectedVersion: nat, expectedStage: Stage): Option<TaskRow> {
    if row.version == expectedVersion && row.state == Succeeded && row.stage == expectedStage then
      Some(row.(state := OutcomeUnknown, stage := VerificationUnknown, version := expectedVersion + 1,
                leaseOwner := None, leaseExpiresAt := None))
    else None
  }

  function RequestCancel(row: TaskRow, expectedVersion: nat): Option<TaskRow> {
    if Closed(row.state) then None
    else Transition(row.(cancelRequested := true), if row.state == Running then Cancelling else Cancelled,
                    expectedVersion)
  }

  predicate NeedsReview(stage: Stage) {
    stage.Published? || stage.DbLinked? || stage.IndexCoordinated? || stage.DurableVerified?
  }

  function Retry(row: TaskRow, expectedVersion: nat): Option<TaskRow> {
    if (row.state != Failed && row.state != Blocked) || NeedsReview(row.stage) then None
    else Transition(row, Queued, expectedVersion)
  }

  function RecoveryTarget(row: TaskRow): TaskState {
    if NeedsReview(row.stage) then Blocked else Paused
  }

  /** One operation that some session commits on a row outside a download run. */
  datatype RowOp =
    | MoveTo(target: TaskState, expectedVersion: nat)
    | Leased(owner: string, expectedVersion: nat, ttl: nat)
    | CancelRequested(expectedVersion: nat)
    | Retried(expectedVersion: nat)

  function ApplyRowOp(row: TaskRow, op: RowOp, now: int): Option<TaskRow> {
    match op
    case MoveTo(target, v) => Transition(row, target, v)
    case Leased(owner, v, ttl) => AcquireLease(row, owner, v, now, ttl)
    case CancelRequested(v) => RequestCancel(row, v)
    case Retried(v) => Retry(row, v)
  }

  /** The rows that the operations reach: a running row is not being cancelled, and only an active row has a lease. */
  predicate Sound(row: TaskRow) {
    && (row.state == Queued || row.state == Running ==> !row.cancelRequested)
    && (row.leaseOwner.Some? ==> row.state == Running || row.state == Cancelling)
  }

  /** What every row operation keeps: the facts of the download, and lease tokens that are only spent once. */
  lemma RowOpKeeps(row: TaskRow, op: RowOp, now: int)
    requires Sound(row) && ApplyRowOp(row, op, now).Some?
    ensures var r := ApplyRowOp(row, op, now).value;
            && Sound(r)
            && r.(state := row.state, version := row.version, leaseOwner := row.leaseOwner,
                  leaseGeneration := row.leaseGeneration,
                  leaseExpiresAt := row.leaseExpiresAt, cancelRequested := row.cancelRequested) == row
            && row.leaseGeneration <= r.leaseGeneration
            && (r.leaseGeneration == row.leaseGeneration ==>
                (r.leaseOwner == row.leaseOwner || r.leaseOwner == None) && r.version == row.version + 1)
            && !Terminal(row.state)
  {
  }

  /** No lease given so far is held after a row operation: every operation ends it. */
  lemma RowOpEndsLease(row: TaskRow, op: RowOp, now: int, owner: string, generation: nat)
    requires Sound(row) && ApplyRowOp(row, op, now).Some? && generation <= row.leaseGeneration
    ensures !HoldsLease(ApplyRowOp(row, op, now).value, owner, generation, now)
  {
  }

  /** A lease that another session has taken over can never be used again, whatever happens to the row. */
  lemma {:induction false} SpentLeaseStaysSpent(row: TaskRow, ops: seq<(RowOp, int)>, owner: string, generation: nat,
                                                now: int)
    requires Sound(row)
    requires row.leaseGeneration > generation || (row.leaseGeneration == generation && row.leaseOwner != Some(owner))
    ensures !HoldsLease(ApplyRowOps(row, ops), owner, generation, now)
    decreases |ops|
  {
    if ops != [] {
      var next := ApplyRowOp(row, ops[0].0, ops[0].1);
      if next.Some? {
        RowOpKeeps(row, ops[0].0, ops[0].1);
        SpentLeaseStaysSpent(next.value, ops[1..], owner, generation, now);
      } else {
        SpentLeaseStaysSpent(row, ops[1..], owner, generation, now);
      }
    }
  }

  /** A history of operations; a refused one is rolled back. */
  function ApplyRowOps(row: TaskRow, ops: seq<(RowOp, int)>): TaskRow
    decreases |ops|
  {
    if ops == [] then row
    else
      var next := ApplyRowOp(row, ops[0].0, ops[0].1);
      ApplyRowOps(if next.Some? then next.value else row, ops[1..])
  }

  /** Restart recovery over all rows in one transaction; a refused transition abandons all of it. */
  method RecoverInterrupted(rows: seq<TaskRow>) returns (r: Option<seq<TaskRow>>)
    ensures r.Some? <==> forall i :: 0 <= i < |rows| ==> rows[i].state != Cancelling
    ensures r.Some? ==> |r.value| == |rows|
    ensures r.Some? ==> forall i :: 0 <= i < |rows| ==>
              if rows[i].state == Running
              then && r.value[i].state == (if NeedsReview(rows[i].stage) then Blocked else Paused)
                   && r.value[i].version == rows[i].version + 1
                   && r.value[i].leaseOwner.None?
                   && r.value[i].stage == rows[i].stage
              else r.value[i] == rows[i]
  {
    var out := rows;
    for i := 0 to |rows|
      invariant |out| == |rows|
      invariant forall j :: 0 <= j < i ==> rows[j].state != Cancelling
      invariant forall j :: i <= j < |rows| ==> out[j] == rows[j]
      invariant forall j :: 0 <= j < i ==>
                  if rows[j].state == Running
                  then && out[j].state == (if NeedsReview(rows[j].stage) then Blocked else Paused)
                       && out[j].version == rows[j].version + 1
                       && out[j].leaseOwner.None?
                       && out[j].stage == rows[j].stage
                  else out[j] == rows[j]
    {
      if rows[i].state == Running || rows[i].state == Cancelling {
        var next := Transition(rows[i], RecoveryTarget(rows[i]), rows[i].version);
        if next.None? {
          return None;
        }
        out := out[i := next.value];
      }
    }
    return Some(out);
  }
}
