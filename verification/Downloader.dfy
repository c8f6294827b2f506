/**
 One run of SafeDownloadExecutor. Between any two of its operations the rest of the world may change the database and
 the disk at will; only while the run's own transaction is open does the database stand still.
 */
module Downloader {
  import opened Basics
  import opened Tasks
  import opened Transfer
  import opened Protocol

  datatype Inode = Inode(content: Bytes, links: nat, regular: bool)

  /** The temporary directory, the target name, and the files of their device. */
  datatype Disk = Disk(temp: map<string, int>, target: Option<int>, inodes: map<int, Inode>)

  datatype IndexRow = IndexRow(isMedia: bool, valid: bool, mimeType: string, sizeBytes: nat, sha256: Digest, inode: int)

  /** The index rows for the target path and the state of the last scan. */
  datatype IndexView = IndexView(rows: seq<IndexRow>, valid: bool, lastScanSucceeded: bool)

  /** What a fresh session reads about the task. */
  datatype Database = Database(now: int, row: TaskRow, fact: DownloadFact, links: seq<LinkRow>, index: IndexView)

  /**
   What a run does to database and disk, with the database at the heartbeat and after the commit, and with what was
   seen at the target before the temporary name was removed.
   */
  datatype Op =
    | Stamped(stage: Stage, pending: Pending, before: Database, after: Database)
    | Appended(bytes: Bytes, before: Database)
    | OffsetCommitted(before: Database, after: Database)
    | LinkedTarget
    | UnlinkedTemp(named: int, inode: int, length: nat, total: nat)
    | Completed

  /** What the exception handler does to database and disk. */
  datatype Cleanup = Cleanup(markedUnknown: bool, settled: Option<TaskState>, discarded: bool, forgot: bool)

  const UNTOUCHED: Cleanup := Cleanup(false, None, false, false)

  /** What the run has to do with an exception: the service's own errors, and the others. */
  datatype Raised = Service(code: ErrorCode) | Unverified | OsFailure | IntegrityClash | Unexpected

  datatype Receipt = Receipt(path: string, sizeBytes: nat, sha256: Digest, mimeType: string)

  /** The run returns, raises a service error, or lets another exception through before it has begun. */
  datatype Outcome = Returned(receipt: Receipt) | Refused(code: ErrorCode) | Escaped(raised: Raised)

  datatype Item = EndOfStream | Chunk(bytes: Bytes) | Broken

  /** The facts that are compared to prove that nothing has been written. */
  datatype PreState = PreState(
    state: TaskState, stage: Stage, version: nat, bytesProcessed: nat, expectedBytes: Option<nat>, mimeType: string,
    sha256: Option<Digest>, leaseOwner: Option<string>, leaseGeneration: nat, leaseExpiresAt: Option<int>,
    temp: Option<TempRef>, resumeOffset: nat, target: Option<(int, Digest)>)

  function PreStateOf(row: TaskRow, fact: DownloadFact, target: Option<(int, Digest)>): PreState {
    PreState(row.state, row.stage, row.version, row.bytesProcessed, row.expectedBytes, row.mimeType, row.sha256,
             row.leaseOwner, row.leaseGeneration, row.leaseExpiresAt, fact.temp, fact.resumeOffset, target)
  }

  /** The identity of the target, or None when it cannot be read as a regular file. */
  function TargetIdentity(disk: Disk): Option<Option<(int, Digest)>> {
    if disk.target.None? then Some(None)
    else if disk.target.value !in disk.inodes || !disk.inodes[disk.target.value].regular then None
    else Some(Some((disk.target.value, Sha256(disk.inodes[disk.target.value].content))))
  }

  predicate RowAgrees(row: TaskRow, state: TaskState, stage: Stage, version: nat, expected: LinkRow) {
    && row.state == state && row.stage == stage && row.version == version
    && row.asset == expected.asset && row.target == expected.path && row.mimeType == expected.mimeType
    && row.expectedBytes == Some(expected.sizeBytes) && row.bytesProcessed == expected.sizeBytes
    && row.sha256 == Some(expected.sha256)
  }

  predicate FileAgrees(disk: Disk, expected: LinkRow) {
    && disk.target.Some? && disk.target.value in disk.inodes
    && var file := disk.inodes[disk.target.value];
       file.regular && file.links == 1 && |file.content| == expected.sizeBytes
           && Sha256(file.content) == expected.sha256
  }

  predicate IndexAgrees(row: IndexRow, disk: Disk, expected: LinkRow) {
    && row.isMedia && row.valid && row.mimeType == expected.mimeType && row.sizeBytes == expected.sizeBytes
    && row.sha256 == expected.sha256 && disk.target == Some(row.inode)
  }

  /** What the session itself can tell: the row, exactly one link row, and the validity and number of index rows. */
  predicate SessionAgrees(db: Database, state: TaskState, stage: Stage, version: nat, expected: LinkRow,
                          indexed: bool) {
    && RowAgrees(db.row, state, stage, version, expected)
    && |db.links| == 1 && db.links[0] == expected
    && (indexed ==> |db.index.rows| == 1 && db.index.valid && db.index.lastScanSucceeded)
  }

  /** Everything the final verification demands: row, single link row, file and single index row agree. */
  predicate CommittedState(db: Database, disk: Disk, state: TaskState, stage: Stage, version: nat, expected: LinkRow,
                           indexed: bool) {
    && SessionAgrees(db, state, stage, version, expected, indexed)
    && FileAgrees(disk, expected)
    && (indexed ==> IndexAgrees(db.index.rows[0], disk, expected))
  }

  predicate LeaseAgrees(db: Database, state: TaskState, owner: string, generation: nat) {
    if state == Running
    then && db.row.leaseOwner == Some(owner) && db.row.leaseGeneration == generation && !db.row.cancelRequested
         && db.row.leaseExpiresAt.Some? && db.now < db.row.leaseExpiresAt.value
    else db.row.leaseOwner.None? && db.row.leaseExpiresAt.None?
  }

  /** What the session has changed besides stage and offset when it commits progress. */
  datatype Pending = Pending(content: Option<(Digest, string)>, temp: Option<Option<TempRef>>, link: Option<LinkRow>)

  const NOTHING: Pending := Pending(None, None, None)

  /** The code an exception stands for, before any proof is attempted. */
  function Classified(raised: Raised, published: bool): ErrorCode {
    var code := match raised
      case Service(c) => c
      case Unverified => UnknownOutcome
      case OsFailure => StorageUnsafe
      case IntegrityClash => ProviderError
      case Unexpected => ProviderError;
    if published && !LeaseFailure(code) && code != CancelRaised && code != PauseRaised then UnknownOutcome else code
  }

  /** Each change belongs to its stage. */
  predicate Fitting(stage: Stage, pending: Pending) {
    && (pending.content.Some? <==> stage == Verified)
    && (pending.link.Some? <==> stage == DbLinked)
    && (pending.temp.Some? ==>
        (stage == Downloading && pending.temp.value.Some?) || (stage == Published && pending.temp.value.None?))
  }

  /** The database after a progress commit. */
  function Progressed(db: Database, stage: Stage, bytes: nat, ttl: nat, pending: Pending): Database {
    var row := db.row.(leaseExpiresAt := Some(db.now + ttl), bytesProcessed := bytes, stage := stage);
    db.(row := if pending.content.Some?
               then row.(sha256 := Some(pending.content.value.0), expectedBytes := Some(bytes),
                         mimeType := pending.content.value.1)
               else row,
        fact := db.fact.(resumeOffset := bytes,
                         temp := if pending.temp.Some? then pending.temp.value else db.fact.temp),
        links := if pending.link.Some? then db.links + [pending.link.value] else db.links)
  }

  /** The commit of a heartbeat with a lifetime that the service admits, and of nothing else but what is pending. */
  predicate IsProgress(stage: Stage, pending: Pending, before: Database, after: Database) {
    && after.row.leaseExpiresAt.Some?
    && 5 <= after.row.leaseExpiresAt.value - before.now <= 300
    && after == Progressed(before, stage, after.row.bytesProcessed, after.row.leaseExpiresAt.value - before.now,
                           pending)
  }

  predicate GuardedBy(op: Op, owner: string, generation: nat) {
    match op
    case Stamped(stage, pending, before, after) =>
      && HoldsLease(before.row, owner, generation, before.now) && Fitting(stage, pending)
      && IsProgress(stage, pending, before, after)
    case Appended(_, before) => HoldsLease(before.row, owner, generation, before.now)
    case OffsetCommitted(before, after) =>
      HoldsLease(before.row, owner, generation, before.now) && IsProgress(Downloading, NOTHING, before, after)
    case UnlinkedTemp(named, inode, length, total) => named == inode && length == total
    case _ => true
  }

  /** The phases of the protocol through which the operations of a run lead. */
  function NextPhase(p: Phase, op: Op): Option<Phase> {
    match op
    case Appended(_, _) => if p == Streaming then Some(Streaming) else None
    case OffsetCommitted(_, _) => if p == Streaming then Some(Streaming) else None
    case LinkedTarget => if p == Checked then Some(Linked) else None
    case UnlinkedTemp(_, _, _, _) => if p == Linked then Some(Unlinked) else None
    case Completed => if p == Indexed then Some(Finished) else None
    case Stamped(stage, _, _, _) =>
      if p == Opened && stage == Downloading then Some(Streaming)
      else if p == Streaming && stage == Verified then Some(Checked)
      else if p == Unlinked && stage == Published then Some(Recorded)
      else if p == Recorded && stage == DbLinked then Some(RowLinked)
      else if p == RowLinked && stage == IndexCoordinated then Some(Indexed)
      else None
  }

  /** None when the operations do not follow the protocol. */
  function PhaseOf(log: seq<Op>): Option<Phase> {
    if log == [] then Some(Opened)
    else
      var p := PhaseOf(log[..|log| - 1]);
      if p.None? then None else NextPhase(p.value, log[|log| - 1])
  }

  lemma PhaseSnoc(log: seq<Op>, op: Op)
    ensures PhaseOf(log + [op]) == if PhaseOf(log).None? then None else NextPhase(PhaseOf(log).value, op)
  {
    assert (log + [op])[..|log|] == log;
  }

  predicate PastLink(p: Phase) {
    p.Linked? || p.Unlinked? || p.Recorded? || p.RowLinked? || p.Indexed? || p.Finished?
  }

  /** The operations of a run without its appends and their commits. */
  datatype Milestone = At(stage: Stage) | Link | Unlink | Complete

  const ORDER: seq<Milestone> :=
    [At(Downloading), At(Verified), Link, Unlink, At(Published), At(DbLinked), At(IndexCoordinated), Complete]

  function Milestones(log: seq<Op>): seq<Milestone> {
    if log == [] then []
    else
      Milestones(log[..|log| - 1])
      + match log[|log| - 1]
        case Stamped(stage, _, _, _) => [At(stage)]
        case Appended(_, _) => []
        case OffsetCommitted(_, _) => []
        case LinkedTarget => [Link]
        case UnlinkedTemp(_, _, _, _) => [Unlink]
        case Completed => [Complete]
  }

  function Rank(p: Phase): nat {
    match p
    case Streaming => 1
    case Checked => 2
    case Linked => 3
    case Unlinked => 4
    case Recorded => 5
    case RowLinked => 6
    case Indexed => 7
    case Finished => 8
    case _ => 0
  }

  /** A run that follows the protocol passes the milestones in their one order and skips none. */
  lemma {:induction false} MilestonesInOrder(log: seq<Op>)
    requires PhaseOf(log).Some?
    ensures Milestones(log) == ORDER[..Rank(PhaseOf(log).value)]
  {
    if log != [] {
      MilestonesInOrder(log[..|log| - 1]);
      var k := Rank(PhaseOf(log[..|log| - 1]).value);
      assert k < 8 ==> ORDER[..k] + [ORDER[k]] == ORDER[..k + 1];
    }
  }

  lemma {:induction false} PhaseOfAppends(before: seq<Op>, after: seq<Op>)
    requires OnlyAdds(before, after) && PhaseOf(before) == Some(Streaming)
    ensures PhaseOf(after) == Some(Streaming)
    decreases |after|
  {
    if before != after {
      PhaseOfAppends(before, after[..|after| - 1]);
      assert after == after[..|after| - 1] + [after[|after| - 1]];
      PhaseSnoc(after[..|after| - 1], after[|after| - 1]);
    }
  }

  /** All bytes that the run has appended, in order. */
  function AppendedBytes(log: seq<Op>): Bytes {
    if log == [] then []
    else AppendedBytes(log[..|log| - 1]) + (if log[|log| - 1].Appended? then log[|log| - 1].bytes else [])
  }

  lemma AppendedSnoc(log: seq<Op>, op: Op)
    ensures AppendedBytes(log + [op]) == AppendedBytes(log) + (if op.Appended? then op.bytes else [])
  {
    assert (log + [op])[..|log|] == log;
  }

  /** The log has grown by appended pieces only. */
  ghost predicate OnlyAppends(before: seq<Op>, after: seq<Op>) {
    before <= after && forall i :: |before| <= i < |after| ==> after[i].Appended?
  }

  /** The log has grown by appended pieces and their commits only. */
  ghost predicate OnlyAdds(before: seq<Op>, after: seq<Op>) {
    before <= after && forall i :: |before| <= i < |after| ==> after[i].Appended? || after[i].OffsetCommitted?
  }

  function ReceiptOf(expected: LinkRow): Receipt {
    Receipt(expected.path, expected.sizeBytes, expected.sha256, expected.mimeType)
  }

  /** The log has grown by the commit of an offset. */
  ghost predicate AddsOffset(before: seq<Op>, after: seq<Op>, bytes: nat) {
    |after| == |before| + 1 && after[..|before|] == before
    && after[|before|].OffsetCommitted? && after[|before|].after.fact.resumeOffset == bytes
  }

  /** The log has grown by the removal of the temporary name. */
  ghost predicate AddsUnlink(before: seq<Op>, after: seq<Op>) {
    |after| == |before| + 1 && after[..|before|] == before && after[|before|].UnlinkedTemp?
  }

  lemma UnlinkPhase(before: seq<Op>, after: seq<Op>)
    requires PhaseOf(before) == Some(Linked)
    ensures AddsUnlink(before, after) ==> PhaseOf(after) == Some(Unlinked)
  {
    if AddsUnlink(before, after) {
      assert after == before + [after[|before|]];
      PhaseSnoc(before, after[|before|]);
    }
  }

  lemma OnlyAddsChains(a: seq<Op>, b: seq<Op>, c: seq<Op>)
    requires OnlyAdds(a, b) && OnlyAdds(b, c)
    ensures OnlyAdds(a, c)
  {
  }

  function Max(a: int, b: int): int {
    if a <= b then b else a
  }

  /** Extending a short header by the next chunk keeps it the beginning of everything read. */
  lemma HeaderGrows(content: Bytes, chunk: Bytes)
    ensures var header := Prefix(content, HEADER_BYTES);
            Prefix(content + chunk, HEADER_BYTES)
            == if |header| < HEADER_BYTES then header + Prefix(chunk, HEADER_BYTES - |header|) else header
  {
  }

  lemma PieceJoins(chunk: Bytes, from: nat, count: nat)
    requires from + count <= |chunk|
    ensures chunk[..from] + chunk[from..][..count] == chunk[..from + count]
    ensures chunk[from..][count..] == chunk[from + count..]
  {
  }

  lemma ProgressedIs(db: Database, stage: Stage, bytes: nat, ttl: nat, pending: Pending)
    requires 5 <= ttl <= 300
    ensures var after := Progressed(db, stage, bytes, ttl, pending);
            && IsProgress(stage, pending, db, after) && after.fact.resumeOffset == after.row.bytesProcessed == bytes
  {
  }

  lemma StampIsGuarded(db: Database, stage: Stage, bytes: nat, ttl: nat, pending: Pending, owner: string,
                       generation: nat)
    requires 5 <= ttl <= 300 && Fitting(stage, pending) && HoldsLease(db.row, owner, generation, db.now)
    ensures GuardedBy(Stamped(stage, pending, db, Progressed(db, stage, bytes, ttl, pending)), owner, generation)
  {
    ProgressedIs(db, stage, bytes, ttl, pending);
  }

  class SafeDownloadExecutor {
    const owner: string
    const generation: nat
    const chunkBytes: nat
    var db: Database
    var disk: Disk
    var file: Option<int>
    var temp: Option<TempRef>
    var offset: nat
    var total: nat
    var header: Bytes
    var digested: Bytes
    var announced: Option<string>
    var published: bool
    var successVersion: Option<nat>
    ghost var log: seq<Op>
    ghost var cleanup: Cleanup
    ghost var resumed: Bytes
    ghost var seenDb: Database
    ghost var seenDisk: Disk
    ghost var captured: PreState
    ghost var loadedRow: TaskRow
    ghost var demand: Demand

    constructor (owner: string, generation: nat, chunkBytes: nat, db: Database, disk: Disk)
      ensures log == [] && cleanup == UNTOUCHED && !published && successVersion.None? && file.None? && temp.None?
      ensures this.owner == owner && this.generation == generation
    {
      this.owner, this.generation, this.chunkBytes := owner, generation, chunkBytes;
      this.db, this.disk := db, disk;
      file, temp, offset, total, header, digested, announced := None, None, 0, 0, [], [], None;
      published, successVersion := false, None;
      log, cleanup, resumed, seenDb, seenDisk := [], UNTOUCHED, [], db, disk;
      captured, loadedRow, demand := PreStateOf(db.row, db.fact, None), db.row, Demand("", None, None, 0);
    }

    /** The running facts are those of the bytes read and written so far. */
    ghost predicate Absorbed()
      reads `total, `header, `digested, `resumed, `log, `offset
    {
      && total == |digested| && header == Prefix(digested, HEADER_BYTES)
      && digested == resumed + AppendedBytes(log) && offset == |resumed|
    }

    ghost predicate Guarded()
      reads `log
    {
      forall op :: op in log ==> GuardedBy(op, owner, generation)
    }

    predicate HasLease()
      reads `db
    {
      HoldsLease(db.row, owner, generation, db.now)
    }

    /** Anything may happen to the disk; a file that the run has open stays readable. */
    method InterfereWithDisk()
      modifies `disk
      ensures file.Some? && file.value in old(disk).inodes ==> file.value in disk.inodes
    {
      var d: Disk := *;
      if file.None? || file.value in d.inodes {
        disk := d;
      }
    }

    /** Anything may happen to database and disk. */
    method Interfere()
      modifies `db, `disk
      ensures file.Some? && file.value in old(disk).inodes ==> file.value in disk.inodes
    {
      db := *;
      InterfereWithDisk();
    }

    /** A fresh session checks the lease. */
    method AssertLease(initial: bool) returns (r: Option<Raised>)
      modifies `db, `disk
      ensures file.Some? && file.value in old(disk).inodes ==> file.value in disk.inodes
      ensures r.None? ==> HasLease()
      ensures r.Some? ==>
                && r.value.Service?
                && (|| LeaseFailure(r.value.code)
                    || (!initial && (r.value.code == CancelRaised || r.value.code == PauseRaised)))
      ensures r == Some(Service(PauseRaised)) ==> db.row.state == Paused
      ensures r == Some(Service(CancelRaised)) ==> db.row.cancelRequested || db.row.state == Cancelling
    {
      Interfere();
      var unreadable: bool := *;
      if unreadable {
        return Some(Service(LeaseConflict));
      }
      if HasLease() {
        return None;
      }
      if !initial {
        if db.row.cancelRequested || db.row.state == Cancelling {
          return Some(Service(CancelRaised));
        }
        if db.row.state == Paused {
          return Some(Service(PauseRaised));
        }
        if db.row.leaseOwner != Some(owner) || db.row.leaseGeneration != generation
           || db.row.leaseExpiresAt.None? || db.row.leaseExpiresAt.value <= db.now {
          return Some(Service(LeaseLost));
        }
      }
      return Some(Service(if initial then LeaseConflict else LeaseLost));
    }

    /** A commit takes effect. */
    method TakeEffect(after: Database, ghost op: Op)
      requires Guarded() && GuardedBy(op, owner, generation)
      modifies `db, `log
      ensures db == after && log == old(log) + [op] && Guarded()
      ensures !op.Appended? ==> AppendedBytes(log) == AppendedBytes(old(log))
    {
      AppendedSnoc(log, op);
      db, log := after, log + [op];
    }

    /** The pending changes of the session are committed together with a heartbeat, or not at all. */
    method CommitProgress(stage: Stage, pending: Pending) returns (r: Option<Raised>)
      requires Guarded() && Fitting(stage, pending)
      modifies `db, `disk, `log
      ensures file.Some? && file.value in old(disk).inodes ==> file.value in disk.inodes
      ensures Guarded() && AppendedBytes(log) == AppendedBytes(old(log))
      ensures log == old(log) || exists before, after :: log == old(log) + [Stamped(stage, pending, before, after)]
      ensures r.None? ==> log != old(log) && HasLease()
      ensures r == Some(IntegrityClash) ==> pending.link.Some? && log == old(log)
      ensures r != Some(Service(WriteFailed))
    {
      r := AssertLease(false);
      if r.Some? {
        return;
      }
      Interfere();
      if !HasLease() {
        r := AssertLease(false);
        return if r.Some? then r else Some(Service(LeaseLost));
      }
      var clash: bool := *;
      if clash && pending.link.Some? {
        return Some(IntegrityClash);
      }
      var ending: Ending := *;
      if ending.RaisedBefore? {
        return Some(Unexpected);
      }
      var ttl: nat :| 5 <= ttl <= 300;
      StampIsGuarded(db, stage, total, ttl, pending, owner, generation);
      ghost var op := Stamped(stage, pending, db, Progressed(db, stage, total, ttl, pending));
      TakeEffect(Progressed(db, stage, total, ttl, pending), op);
      if ending.RaisedAfter? {
        return Some(Unexpected);
      }
      r := AssertLease(false);
    }

    /** The system call that appends to the open file. */
    method OsWrite(piece: Bytes)
      requires file.Some? && file.value in disk.inodes
      modifies `disk, `log
      ensures var inode := old(disk).inodes[file.value];
              disk == old(disk).(inodes := old(disk).inodes[file.value := inode.(content := inode.content + piece)])
      ensures log == old(log) + [Appended(piece, db)]
      ensures AppendedBytes(log) == AppendedBytes(old(log)) + piece
    {
      var inode := disk.inodes[file.value];
      disk := disk.(inodes := disk.inodes[file.value := inode.(content := inode.content + piece)]);
      AppendedSnoc(log, Appended(piece, db));
      log := log + [Appended(piece, db)];
    }

    /** The pieces are written while the transaction is open: nobody else changes the database. */
    method WritePieces(chunk: Bytes) returns (r: Option<Raised>)
      requires Guarded() && HasLease() && file.Some? && file.value in disk.inodes
      modifies `disk, `log
      ensures file.value in disk.inodes && Guarded() && OnlyAppends(old(log), log)
      ensures AppendedBytes(old(log)) <= AppendedBytes(log) <= AppendedBytes(old(log)) + chunk
      ensures r.None? ==> AppendedBytes(log) == AppendedBytes(old(log)) + chunk
      ensures r != Some(Service(WriteFailed))
    {
      var view := chunk;
      while view != []
        invariant Guarded() && file.value in disk.inodes
        invariant OnlyAppends(old(log), log)
        invariant |view| <= |chunk| && view == chunk[|chunk| - |view|..]
        invariant AppendedBytes(log) == AppendedBytes(old(log)) + chunk[..|chunk| - |view|]
        decreases |view|
      {
        InterfereWithDisk();
        if * {
          return Some(OsFailure);
        }
        var written: nat :| written <= |view|;
        if written < 1 {
          return Some(Service(StorageUnsafe));
        }
        OsWrite(view[..written]);
        PieceJoins(chunk, |chunk| - |view|, written);
        view := view[written..];
      }
      return None;
    }

    /** The offset is set and the open transaction committed. */
    method CommitOffset(bytes: nat) returns (r: Option<Raised>)
      requires Guarded() && HasLease()
      modifies `db, `disk, `log
      ensures file.Some? && file.value in old(disk).inodes ==> file.value in disk.inodes
      ensures Guarded() && AppendedBytes(log) == AppendedBytes(old(log))
      ensures log == old(log) || AddsOffset(old(log), log, bytes)
      ensures r.None? ==> AddsOffset(old(log), log, bytes) && HasLease()
      ensures r != Some(Service(WriteFailed))
    {
      var ending: Ending := *;
      if ending.RaisedBefore? {
        return Some(Unexpected);
      }
      var ttl: nat :| 5 <= ttl <= 300;
      ProgressedIs(db, Downloading, bytes, ttl, NOTHING);
      ghost var op := OffsetCommitted(db, Progressed(db, Downloading, bytes, ttl, NOTHING));
      TakeEffect(Progressed(db, Downloading, bytes, ttl, NOTHING), op);
      if ending.RaisedAfter? {
        return Some(Unexpected);
      }
      r := AssertLease(false);
    }

    /** The heartbeat opens a transaction, the chunk is written in pieces, and the offset is committed. */
    method WriteFencedChunk(chunk: Bytes) returns (r: Option<Raised>)
      requires Guarded() && file.Some? && file.value in disk.inodes
      modifies `db, `disk, `log
      ensures file.value in disk.inodes
      ensures Guarded()
      ensures OnlyAdds(old(log), log)
      ensures AppendedBytes(old(log)) <= AppendedBytes(log) <= AppendedBytes(old(log)) + chunk
      ensures r.None? ==> AppendedBytes(log) == AppendedBytes(old(log)) + chunk && HasLease()
      ensures forall i :: |old(log)| <= i < |log| && log[i].OffsetCommitted? ==>
                i == |log| - 1 && log[i].after.fact.resumeOffset == old(total) + |chunk|
                    && AppendedBytes(log) == AppendedBytes(old(log)) + chunk
      ensures r.None? ==> log != [] && log[|log| - 1].OffsetCommitted?
      ensures r != Some(Service(WriteFailed))
    {
      Interfere();
      if !HasLease() {
        r := AssertLease(false);
        return if r.Some? then r else Some(Service(LeaseLost));
      }
      r := WritePieces(chunk);
      if r.Some? {
        return;
      }
      r := CommitOffset(total + |chunk|);
    }

    /**
     The recorded temporary file is reopened and read, or a new one is created; what the fact must record is returned.
     */
    method OpenTemp(fact: DownloadFact) returns (r: Option<Raised>, record: Option<Option<TempRef>>)
      requires log == []
      modifies `disk, `file, `temp, `offset, `total, `header, `digested, `resumed
      ensures r.None? ==> temp.Some? && file == Some(temp.value.inode) && file.value in disk.inodes && Absorbed()
      ensures r.None? && fact.temp.Some? ==>
                && temp == fact.temp && offset == fact.resumeOffset && disk.inodes[file.value].content == digested
                   && record.None?
                && disk.inodes[file.value].links == 1
      ensures r.None? && fact.temp.None? ==> digested == [] && record == Some(temp)
      ensures r.Some? ==>
                && (r.value == Service(StorageUnsafe) || r.value == Service(SnapshotChanged))
                && temp == old(temp)
                && file == old(file)
      ensures r.Some? ==> resumed == old(resumed)
    {
      r, record := None, None;
      InterfereWithDisk();
      if * {
        return Some(Service(StorageUnsafe)), None;
      }
      if fact.temp.Some? {
        var seen := fact.temp.value;
        if seen.name !in disk.temp || disk.temp[seen.name] != seen.inode || seen.inode !in disk.inodes
           || !disk.inodes[seen.inode].regular || disk.inodes[seen.inode].links != 1 {
          return Some(Service(StorageUnsafe)), None;
        }
        var content := disk.inodes[seen.inode].content;
        if |content| != fact.resumeOffset {
          return Some(Service(SnapshotChanged)), None;
        }
        file, temp := Some(seen.inode), fact.temp;
        offset, total, header, digested := |content|, |content|, Prefix(content, HEADER_BYTES), content;
        resumed := content;
      } else {
        var name: string := *;
        var inode: int := *;
        if name in disk.temp || inode in disk.inodes {
          return Some(Service(StorageUnsafe)), None;
        }
        disk := disk.(temp := disk.temp[name := inode], inodes := disk.inodes[inode := Inode([], 1, true)]);
        file, temp := Some(inode), Some(TempRef(name, inode));
        offset, total, header, digested := 0, 0, [], [];
        resumed := [];
        record := Some(temp);
      }
    }

    /** Header, digest and total take in one written chunk. */
    method Absorb(chunk: Bytes)
      requires total == |digested| && header == Prefix(digested, HEADER_BYTES)
      modifies `total, `header, `digested
      ensures digested == old(digested) + chunk
      ensures total == |digested| && header == Prefix(digested, HEADER_BYTES)
    {
      HeaderGrows(digested, chunk);
      if |header| < HEADER_BYTES {
        header := header + Prefix(chunk, HEADER_BYTES - |header|);
      }
      digested := digested + chunk;
      total := total + |chunk|;
    }

    /** One chunk is checked, written under the lease and taken in. */
    method TakeChunk(chunk: Bytes, maxBytes: nat) returns (r: Option<Raised>)
      requires Guarded() && Absorbed() && file.Some? && file.value in disk.inodes
      modifies `db, `disk, `log, `total, `header, `digested
      ensures file.value in disk.inodes
      ensures Guarded() && OnlyAdds(old(log), log)
      ensures r.None? ==> Absorbed() && chunk != [] && digested == old(digested) + chunk && total <= maxBytes
      ensures |resumed + AppendedBytes(log)| <= Max(old(total), maxBytes)
      ensures r != Some(Service(WriteFailed))
    {
      if |chunk| == 0 || |chunk| > chunkBytes {
        return Some(Service(ProviderError));
      }
      var nextTotal := total + |chunk|;
      if nextTotal > maxBytes {
        return Some(Service(TooLarge));
      }
      r := WriteFencedChunk(chunk);
      if r.Some? {
        return;
      }
      Absorb(chunk);
      assert resumed + (AppendedBytes(old(log)) + chunk) == (resumed + AppendedBytes(old(log))) + chunk;
    }

    /** The chunks of the response are appended one by one; total, header and digest follow. */
    method Receive(maxBytes: nat) returns (r: Option<Raised>)
      requires Guarded() && Absorbed() && file.Some? && file.value in disk.inodes
      modifies `db, `disk, `log, `total, `header, `digested
      ensures file.value in disk.inodes
      ensures Guarded() && OnlyAdds(old(log), log)
      ensures r.None? ==> Absorbed() && (total == old(total) || total <= maxBytes) && old(digested) <= digested
      ensures |resumed + AppendedBytes(log)| <= Max(old(total), maxBytes)
      ensures r != Some(Service(WriteFailed))
    {
      while true
        invariant file.value in disk.inodes && Guarded() && Absorbed() && OnlyAdds(old(log), log)
        invariant total == old(total) || total <= maxBytes
        invariant old(digested) <= digested
        decreases maxBytes - total
      {
        Interfere();
        var item: Item := *;
        if item.EndOfStream? {
          return None;
        }
        if !item.Chunk? {
          return Some(Service(ProviderError));
        }
        ghost var before := log;
        r := TakeChunk(item.bytes, maxBytes);
        OnlyAddsChains(old(log), before, log);
        if r.Some? {
          return;
        }
      }
    }

    /** The finished content is judged on total, header and digest, and the open file is checked once more. */
    method FinalChecks(d: Demand, response: Response) returns (r: Option<Raised>)
      requires Absorbed() && file.Some? && file.value in disk.inodes && (total == offset || total <= d.maxBytes)
      modifies `db, `disk, `announced
      ensures file.value in disk.inodes
      ensures r.None? ==>
                && Announces(digested, announced)
                && Acceptable(d, digested, announced)
                && total != offset
                && disk.inodes[file.value].links == 1
      ensures r.None? && response.contentLength.Some? ==> total - offset == response.contentLength.value
      ensures r != Some(Service(WriteFailed))
    {
      r := AssertLease(false);
      if r.Some? {
        return;
      }
      announced := DetectedMime(header);
      var refusal := FinalRefusal(d, response, offset, total, announced, Sha256(digested));
      if refusal.Some? {
        return Some(Service(refusal.value));
      }
      Interfere();
      if * {
        return Some(OsFailure);
      }
      var inode := disk.inodes[file.value];
      if !inode.regular || inode.links != 1 || (db.fact.temp.Some? && db.fact.temp.value.inode != file.value) {
        return Some(Service(StorageUnsafe));
      }
    }

    /** The system call that creates the target name for the file behind the temporary name. */
    method OsLink()
      requires temp.Some? && temp.value.name in disk.temp && disk.target.None?
               && disk.temp[temp.value.name] in disk.inodes
      modifies `disk, `log, `published
      ensures disk.target == Some(old(disk).temp[temp.value.name]) && disk.temp == old(disk).temp
      ensures disk.inodes.Keys == old(disk).inodes.Keys
      ensures forall i :: i in disk.inodes ==> disk.inodes[i].content == old(disk).inodes[i].content
      ensures log == old(log) + [LinkedTarget] && AppendedBytes(log) == AppendedBytes(old(log)) && published
    {
      var i := disk.temp[temp.value.name];
      disk := disk.(target := Some(i), inodes := disk.inodes[i := disk.inodes[i].(links := disk.inodes[i].links + 1)]);
      AppendedSnoc(log, LinkedTarget);
      log := log + [LinkedTarget];
      published := true;
    }

    /** The target name is created without overwriting, compared with the open file, and the temporary name removed. */
    method Publish() returns (r: Option<Raised>)
      requires Guarded() && !published && temp.Some? && file.Some? && file.value in disk.inodes
      modifies `db, `disk, `log, `published, `temp
      ensures file.value in disk.inodes && Guarded() && AppendedBytes(log) == AppendedBytes(old(log))
      ensures !published ==> log == old(log) && r.Some?
      ensures published ==> log == old(log) + [LinkedTarget] || AddsUnlink(old(log) + [LinkedTarget], log)
      ensures r.None? ==> published && AddsUnlink(old(log) + [LinkedTarget], log) && temp.None?
      ensures r != Some(Service(WriteFailed))
    {
      r := AssertLease(false);
      if r.Some? {
        return;
      }
      var locked: bool := *;
      if !locked {
        return Some(Unexpected);
      }
      r := AssertLease(false);
      if r.Some? {
        return;
      }
      InterfereWithDisk();
      if * {
        return Some(OsFailure);
      }
      if disk.target.Some? {
        return Some(Service(TargetExists));
      }
      if temp.value.name !in disk.temp || disk.temp[temp.value.name] !in disk.inodes {
        return Some(Service(PublishFailed));
      }
      OsLink();
      r := RemoveTempName();
    }

    /** The published name is compared with the open file, and only then is the temporary name removed. */
    method RemoveTempName() returns (r: Option<Raised>)
      requires Guarded() && published && temp.Some? && file.Some? && file.value in disk.inodes
      modifies `disk, `log, `temp
      ensures file.value in disk.inodes && Guarded() && AppendedBytes(log) == AppendedBytes(old(log))
      ensures log == old(log) || AddsUnlink(old(log), log)
      ensures r.None? ==> AddsUnlink(old(log), log) && temp.None?
      ensures r != Some(Service(WriteFailed))
    {
      InterfereWithDisk();
      if disk.target.None? {
        return Some(OsFailure);
      }
      var target, inode := disk.target.value, disk.inodes[file.value];
      if target != file.value || !inode.regular || |inode.content| != total {
        return Some(Service(UnknownOutcome));
      }
      InterfereWithDisk();
      if temp.value.name !in disk.temp {
        return Some(OsFailure);
      }
      ghost var op := UnlinkedTemp(target, file.value, |inode.content|, total);
      AppendedSnoc(log, op);
      disk, log := disk.(temp := disk.temp - {temp.value.name}), log + [op];
      temp := None;
      var locked: bool := *;
      return if locked then None else Some(Unexpected);
    }

    /** A fresh session reads the row, the link rows and the index rows. */
    method ReadSession(state: TaskState, stage: Stage, version: nat, expected: LinkRow,
                       indexed: bool) returns (ok: bool)
      modifies `db, `disk, `seenDb
      ensures file.Some? && file.value in old(disk).inodes ==> file.value in disk.inodes
      ensures seenDb == db
      ensures ok ==> SessionAgrees(seenDb, state, stage, version, expected, indexed)
      ensures ok ==> LeaseAgrees(seenDb, state, owner, generation)
    {
      Interfere();
      seenDb := db;
      var readable: bool := *;
      ok := readable && SessionAgrees(db, state, stage, version, expected, indexed)
          && LeaseAgrees(db, state, owner, generation);
    }

    /** Then the published file is read. */
    method ReadFile(expected: LinkRow, row: Option<IndexRow>) returns (ok: bool)
      modifies `disk, `seenDisk
      ensures file.Some? && file.value in old(disk).inodes ==> file.value in disk.inodes
      ensures ok ==> FileAgrees(seenDisk, expected) && (row.Some? ==> IndexAgrees(row.value, seenDisk, expected))
    {
      InterfereWithDisk();
      seenDisk := disk;
      ok := FileAgrees(disk, expected) && (row.Some? ==> IndexAgrees(row.value, disk, expected));
    }

    /** Row, single link row, file and single index row are verified by a fresh session. */
    method VerifyCommitted(state: TaskState, stage: Stage, version: nat, expected: LinkRow,
                           indexed: bool) returns (r: Option<Raised>)
      modifies `db, `disk, `seenDb, `seenDisk
      ensures file.Some? && file.value in old(disk).inodes ==> file.value in disk.inodes
      ensures r.None? ==> CommittedState(seenDb, seenDisk, state, stage, version, expected, indexed)
      ensures r.None? ==> LeaseAgrees(seenDb, state, owner, generation)
      ensures r.Some? ==> r.value == Unverified
    {
      var ok := ReadSession(state, stage, version, expected, indexed);
      if !ok {
        return Some(Unverified);
      }
      ok := ReadFile(expected, if indexed then Some(db.index.rows[0]) else None);
      r := if ok then None else Some(Unverified);
    }

    /** A fresh session finds no link row and everything as it was captured. */
    method VerifyPreState(pre: PreState) returns (proved: bool)
      modifies `db, `disk, `seenDb, `seenDisk
      ensures file.Some? && file.value in old(disk).inodes ==> file.value in disk.inodes
      ensures proved ==>
                && seenDb.links == [] && TargetIdentity(seenDisk).Some?
                && PreStateOf(seenDb.row, seenDb.fact, TargetIdentity(seenDisk).value) == pre
    {
      Interfere();
      seenDb := db;
      if * {
        return false;
      }
      if |db.links| != 0 {
        return false;
      }
      InterfereWithDisk();
      seenDisk := disk;
      var identity := TargetIdentity(disk);
      return identity.Some? && PreStateOf(db.row, db.fact, identity.value) == pre;
    }

    /** The published file is recorded, linked in the database and indexed, each under the lease and re-read. */
    method Record(expected: LinkRow) returns (r: Option<Raised>)
      requires Guarded() && PhaseOf(log) == Some(Unlinked)
      modifies `db, `disk, `log, `seenDb, `seenDisk
      ensures Guarded() && AppendedBytes(log) == AppendedBytes(old(log)) && old(log) <= log
      ensures PhaseOf(log).Some?
      ensures r.None? ==> PhaseOf(log) == Some(Indexed)
      ensures r != Some(Service(WriteFailed))
    {
      r := Stamp(Published, Pending(None, Some(None), None), Recorded);
      if r.Some? {
        return;
      }
      r := AssertLease(false);
      if r.Some? {
        return;
      }
      r := InsertLink(expected);
      if r.Some? {
        return;
      }
      r := Index(expected);
    }

    /** The link row is inserted with stage `db_linked`; a clash of unique keys is the failure to link. */
    method InsertLink(expected: LinkRow) returns (r: Option<Raised>)
      requires Guarded() && PhaseOf(log) == Some(Recorded)
      modifies `db, `disk, `log, `seenDb, `seenDisk
      ensures Guarded() && AppendedBytes(log) == AppendedBytes(old(log)) && old(log) <= log
      ensures PhaseOf(log).Some?
      ensures r.None? ==> PhaseOf(log) == Some(RowLinked)
      ensures r != Some(Service(WriteFailed)) && r != Some(IntegrityClash)
    {
      r := Stamp(DbLinked, Pending(None, None, Some(expected)), RowLinked);
      if r == Some(IntegrityClash) {
        return Some(Service(LinkFailed));
      }
      if r.Some? {
        return;
      }
      r := Recheck(DbLinked, expected, false);
    }

    /** The index is brought up to date, and everything is verified once more. */
    method Index(expected: LinkRow) returns (r: Option<Raised>)
      requires Guarded() && PhaseOf(log) == Some(RowLinked)
      modifies `db, `disk, `log, `seenDb, `seenDisk
      ensures Guarded() && AppendedBytes(log) == AppendedBytes(old(log)) && old(log) <= log
      ensures PhaseOf(log).Some?
      ensures r.None? ==> PhaseOf(log) == Some(Indexed)
      ensures r != Some(Service(WriteFailed))
    {
      var coordinated: bool := *;
      if !coordinated {
        return Some(Unexpected);
      }
      r := AssertLease(false);
      if r.Some? {
        return;
      }
      r := Stamp(IndexCoordinated, Pending(None, None, None), Indexed);
      if r.Some? {
        return;
      }
      r := Recheck(IndexCoordinated, expected, true);
    }

    /** A progress commit that moves the run to the next phase of the protocol. */
    method Stamp(stage: Stage, pending: Pending, phase: Phase) returns (r: Option<Raised>)
      requires Guarded() && PhaseOf(log).Some?
      requires Fitting(stage, pending)
      requires forall before, after ::
                 NextPhase(PhaseOf(log).value, Stamped(stage, pending, before, after)) == Some(phase)
      modifies `db, `disk, `log
      ensures file.Some? && file.value in old(disk).inodes ==> file.value in disk.inodes
      ensures Guarded() && AppendedBytes(log) == AppendedBytes(old(log)) && old(log) <= log
      ensures PhaseOf(log) == PhaseOf(old(log)) || PhaseOf(log) == Some(phase)
      ensures r.None? ==> PhaseOf(log) == Some(phase) && HasLease()
      ensures r == Some(IntegrityClash) ==> pending.link.Some?
      ensures r != Some(Service(WriteFailed))
    {
      r := CommitProgress(stage, pending);
      if log != old(log) {
        ghost var before, after :| log == old(log) + [Stamped(stage, pending, before, after)];
        PhaseSnoc(old(log), Stamped(stage, pending, before, after));
      }
    }

    /** The row is re-read under the lease, and everything verified against it by fresh sessions. */
    method Recheck(stage: Stage, expected: LinkRow, indexed: bool) returns (r: Option<Raised>)
      modifies `db, `disk, `seenDb, `seenDisk
      ensures r.None? ==>
                && HasLease()
                && CommittedState(seenDb, seenDisk, Running, stage, seenDb.row.version, expected, indexed)
      ensures r != Some(Service(WriteFailed)) && r != Some(IntegrityClash)
    {
      r := AssertLease(false);
      if r.Some? {
        return;
      }
      r := VerifyCommitted(Running, stage, db.row.version, expected, indexed);
      if r.Some? {
        return;
      }
      r := AssertLease(false);
    }

    /** The final transition: a compare-and-set on the version just read. */
    method Complete() returns (r: Option<Raised>)
      requires Guarded() && PhaseOf(log) == Some(Indexed) && successVersion.None?
      modifies `db, `disk, `log, `successVersion
      ensures Guarded() && AppendedBytes(log) == AppendedBytes(old(log)) && old(log) <= log
      ensures PhaseOf(log) == Some(Indexed) || (PhaseOf(log) == Some(Finished) && successVersion.Some?)
      ensures r.None? ==> PhaseOf(log) == Some(Finished) && db.row.state == Succeeded && db.row.stage == DurableVerified
                          && successVersion == Some(db.row.version) && db.row.leaseOwner.None?
      ensures r.Some? ==> !r.value.Service?
    {
      Interfere();
      var version := db.row.version;
      Interfere();
      var next := Transition(db.row, Succeeded, version);
      if next.None? {
        return Some(Unexpected);
      }
      successVersion := Some(next.value.version);
      var ending: Ending := *;
      if ending.RaisedBefore? {
        return Some(Unexpected);
      }
      PhaseSnoc(log, Completed);
      AppendedSnoc(log, Completed);
      db, log := db.(row := next.value.(stage := DurableVerified)), log + [Completed];
      r := if ending.RaisedAfter? then Some(Unexpected) else None;
    }

    /** The provider is asked for the rest, and its response checked. */
    method Ask(d: Demand) returns (r: Option<Raised>, response: Response)
      ensures r.None? ==> ValidateResponse(response, offset, d.maxBytes).None? && response.mimeType == d.mimeType
      ensures r != Some(Service(WriteFailed))
    {
      var answered: bool := *;
      response := *;
      if !answered {
        return Some(Service(ProviderError)), response;
      }
      var refusal := ValidateResponse(response, offset, d.maxBytes);
      if refusal.Some? {
        return Some(Service(refusal.value)), response;
      }
      r := if response.mimeType != d.mimeType then Some(Service(TypeRejected)) else None;
    }

    /** The response is received and judged, and stage `verified` committed. */
    method Download(d: Demand) returns (r: Option<Raised>)
      requires Guarded() && Absorbed() && total == offset && PhaseOf(log) == Some(Streaming) && file.Some?
               && file.value in disk.inodes
      modifies `db, `disk, `total, `header, `digested, `announced, `log
      ensures file.value in disk.inodes && Guarded() && PhaseOf(log).Some? && !PastLink(PhaseOf(log).value)
      ensures |resumed + AppendedBytes(log)| <= Max(old(total), d.maxBytes)
      ensures r.None? ==>
                && PhaseOf(log) == Some(Checked)
                && Absorbed()
                && Announces(digested, announced)
                && Acceptable(d, digested, announced)
                && total != offset
      ensures r != Some(Service(WriteFailed))
    {
      var response;
      r, response := Ask(d);
      if r.Some? {
        return;
      }
      ghost var before := log;
      r := Receive(d.maxBytes);
      PhaseOfAppends(before, log);
      if r.Some? {
        return;
      }
      r := FinalChecks(d, response);
      if r.Some? {
        return;
      }
      r := Stamp(Verified, Pending(Some((Sha256(digested), d.mimeType)), None, None), Checked);
    }

    /** From the temporary file to accepted content under stage `verified`. */
    method Transfer(fact: DownloadFact, d: Demand) returns (r: Option<Raised>)
      requires log == [] && resumed == [] && file.None? && temp.None?
      modifies `db, `disk, `file, `temp, `offset, `total, `header, `digested, `announced, `resumed, `log
      ensures Guarded() && PhaseOf(log).Some? && !PastLink(PhaseOf(log).value)
      ensures file.Some? ==> file.value in disk.inodes
      ensures |resumed + AppendedBytes(log)| <= Max(|resumed|, d.maxBytes)
      ensures r.None? ==> PhaseOf(log) == Some(Checked) && Absorbed() && temp.Some? && file.Some?
      ensures r.None? ==> Announces(digested, announced) && Acceptable(d, digested, announced) && total != offset
      ensures r != Some(Service(WriteFailed))
    {
      var record;
      r, record := OpenTemp(fact);
      if r.Some? {
        return;
      }
      r := Stamp(Downloading, Pending(None, record, None), Streaming);
      if r.Some? {
        return;
      }
      r := Download(d);
    }

    /** An apparent success that could not be verified is downgraded, if it is still what the run committed. */
    method MarkUnknown(version: nat)
      modifies `db, `disk, `cleanup
      ensures file.Some? && file.value in old(disk).inodes ==> file.value in disk.inodes
      ensures cleanup == old(cleanup)
              || (cleanup == old(cleanup).(markedUnknown := true) && db.row.state == OutcomeUnknown
                  && db.row.version == version + 1)
    {
      Interfere();
      if db.row.state == Succeeded && db.row.stage == DurableVerified && db.row.version == version {
        var next := MarkVerificationUnknown(db.row, version, DurableVerified);
        var ending: Ending := *;
        if next.Some? && !ending.RaisedBefore? {
          db, cleanup := db.(row := next.value), cleanup.(markedUnknown := true);
        }
      }
    }

    /** A row that is still running or being cancelled is moved on, under the version just read. */
    method Settle(code: ErrorCode)
      modifies `db, `disk, `cleanup
      ensures file.Some? && file.value in old(disk).inodes ==> file.value in disk.inodes
      ensures cleanup == old(cleanup)
              || (cleanup == old(cleanup).(settled := Some(HandlerTarget(code, published))) && code != PauseRaised
                  && db.row.state == HandlerTarget(code, published) && db.row.leaseOwner.None?)
    {
      Interfere();
      var row := db.row;
      if code != PauseRaised && (row.state == Running || row.state == Cancelling) {
        Interfere();
        var target := HandlerTarget(code, published);
        var next := Transition(db.row, target, row.version);
        var ending: Ending := *;
        if next.Some? && !ending.RaisedBefore? {
          db, cleanup := db.(row := next.value), cleanup.(settled := Some(target));
        }
      }
    }

    /** The temporary name is removed and the fact forgets it. */
    method Discard()
      requires temp.Some?
      modifies `db, `disk, `cleanup
      ensures cleanup == old(cleanup) || cleanup == old(cleanup).(discarded := true)
              || (cleanup == old(cleanup).(discarded := true, forgot := true) && db.fact.temp.None?
                  && db.fact.resumeOffset == 0)
    {
      Interfere();
      if temp.value.name !in disk.temp {
        return;
      }
      disk, cleanup := disk.(temp := disk.temp - {temp.value.name}), cleanup.(discarded := true);
      Interfere();
      var ending: Ending := *;
      if !ending.RaisedBefore? {
        db, cleanup := db.(fact := db.fact.(temp := None, resumeOffset := 0)), cleanup.(forgot := true);
      }
    }

    /** A run that made the final commit looks once more; if it cannot see it, it downgrades the success. */
    method Reverify(expected: LinkRow) returns (proved: bool)
      requires cleanup == UNTOUCHED
      modifies `db, `disk, `cleanup, `seenDb, `seenDisk
      ensures proved ==> cleanup == UNTOUCHED && published && ProvedBySeen(expected)
      ensures !proved ==> cleanup == UNTOUCHED
                          || (cleanup == UNTOUCHED.(markedUnknown := true) && published && successVersion.Some?)
    {
      if !published || successVersion.None? {
        return false;
      }
      var doubt := VerifyCommitted(Succeeded, DurableVerified, successVersion.value, expected, true);
      if doubt.Some? {
        MarkUnknown(successVersion.value);
      }
      proved := doubt.None?;
    }

    /** The handler decides what has happened from what fresh sessions can still prove. */
    method Handle(caught: Raised, pre: PreState, expected: LinkRow) returns (outcome: Outcome)
      requires cleanup == UNTOUCHED && caught != Service(WriteFailed)
      modifies `db, `disk, `cleanup, `seenDb, `seenDisk
      ensures !outcome.Escaped?
      ensures outcome.Returned? ==>
              cleanup == UNTOUCHED && published && ProvedBySeen(expected) && outcome.receipt == ReceiptOf(expected)
      ensures outcome.Refused? ==> SettledAs(outcome.code)
      ensures outcome == Refused(WriteFailed) ==> NothingWrittenSeen(pre)
      ensures outcome.Refused? && caught.Service? ==> outcome.code == Classified(caught, published)
      ensures outcome.Refused? && !caught.Service? ==> outcome.code == WriteFailed || outcome.code == UnknownOutcome
    {
      var code := Classified(caught, published);
      var leaseFailure := LeaseFailure(code);
      var proved := Reverify(expected);
      if proved {
        return Returned(ReceiptOf(expected));
      }
      if !caught.Service? {
        var untouched := VerifyPreState(pre);
        code := if untouched then WriteFailed else UnknownOutcome;
      }
      if !leaseFailure {
        Stop(code);
      }
      return Refused(code);
    }

    method Stop(code: ErrorCode)
      requires cleanup.settled.None? && !cleanup.discarded && !cleanup.forgot && !LeaseFailure(code)
      modifies `db, `disk, `cleanup
      ensures cleanup.markedUnknown == old(cleanup).markedUnknown
      ensures cleanup.settled.Some? ==> cleanup.settled.value == HandlerTarget(code, published)
      ensures code == PauseRaised ==> cleanup == old(cleanup)
      ensures published ==> !cleanup.discarded && !cleanup.forgot
    {
      Settle(code);
      if code != PauseRaised && !published && temp.Some? {
        Discard();
      }
    }

    /** A fresh session saw the final state of this run's own commit. */
    ghost predicate ProvedBySeen(expected: LinkRow)
      reads `published, `successVersion, `seenDb, `seenDisk
    {
      && published && successVersion.Some?
      && CommittedState(seenDb, seenDisk, Succeeded, DurableVerified, successVersion.value, expected, true)
      && LeaseAgrees(seenDb, Succeeded, owner, generation)
    }

    /** A fresh session saw no link row and the captured facts. */
    ghost predicate NothingWrittenSeen(pre: PreState)
      reads `seenDb, `seenDisk
    {
      && seenDb.links == [] && TargetIdentity(seenDisk).Some?
      && PreStateOf(seenDb.row, seenDb.fact, TargetIdentity(seenDisk).value) == pre
    }

    /** What a run that raises this code may have done to row and temporary file. */
    ghost predicate SettledAs(code: ErrorCode)
      reads `cleanup, `published, `successVersion
    {
      && (cleanup.settled.Some? ==> cleanup.settled.value == HandlerTarget(code, published))
      && (published ==> cleanup.settled != Some(Failed) && !cleanup.discarded && !cleanup.forgot)
      && (LeaseFailure(code) || code == PauseRaised ==> cleanup.settled.None? && !cleanup.discarded && !cleanup.forgot)
      && (cleanup.markedUnknown ==> published && successVersion.Some?)
    }

    /** From accepted content to the final commit and its independent verification. */
    method Deliver(asset: AssetKey, path: string, mimeType: string) returns (r: Option<Raised>)
      requires Guarded() && PhaseOf(log) == Some(Checked) && !published && successVersion.None?
      requires temp.Some? && file.Some? && file.value in disk.inodes
      modifies `db, `disk, `temp, `published, `successVersion, `log, `seenDb, `seenDisk
      ensures Guarded() && PhaseOf(log).Some? && AppendedBytes(log) == AppendedBytes(old(log))
      ensures published <==> PastLink(PhaseOf(log).value)
      ensures successVersion.Some? ==> published
      ensures r.None? ==>
                && ProvedBySeen(LinkRow(asset, path, mimeType, total, Sha256(digested)))
                && PhaseOf(log) == Some(Finished)
      ensures r != Some(Service(WriteFailed))
    {
      r := PublishInOrder();
      if r.None? {
        r := RecordAndComplete(LinkRow(asset, path, mimeType, total, Sha256(digested)));
      }
    }

    /** From the published file to the final commit and its independent verification. */
    method RecordAndComplete(expected: LinkRow) returns (r: Option<Raised>)
      requires Guarded() && PhaseOf(log) == Some(Unlinked) && published && successVersion.None?
      modifies `db, `disk, `successVersion, `log, `seenDb, `seenDisk
      ensures Guarded() && PhaseOf(log).Some? && AppendedBytes(log) == AppendedBytes(old(log))
      ensures PastLink(PhaseOf(log).value)
      ensures r.None? ==> ProvedBySeen(expected) && PhaseOf(log) == Some(Finished)
      ensures r != Some(Service(WriteFailed))
    {
      r := AssertLease(false);
      if r.Some? {
        return;
      }
      ghost var before := log;
      r := Record(expected);
      StillPastLink(before, log);
      if r.Some? {
        return;
      }
      r := Complete();
      if r.Some? {
        return;
      }
      r := VerifyCommitted(Succeeded, DurableVerified, successVersion.value, expected, true);
    }

    method PublishInOrder() returns (r: Option<Raised>)
      requires Guarded() && PhaseOf(log) == Some(Checked) && !published && temp.Some? && file.Some?
               && file.value in disk.inodes
      modifies `db, `disk, `log, `published, `temp
      ensures Guarded() && PhaseOf(log).Some? && AppendedBytes(log) == AppendedBytes(old(log))
      ensures published <==> PastLink(PhaseOf(log).value)
      ensures r.None? ==> PhaseOf(log) == Some(Unlinked)
      ensures r != Some(Service(WriteFailed))
    {
      r := Publish();
      PhaseSnoc(old(log), LinkedTarget);
      UnlinkPhase(old(log) + [LinkedTarget], log);
    }

    /** Everything inside the source's `try`: the run raises, or has seen its final state with a fresh session. */
    method Attempt(fact: DownloadFact, d: Demand, asset: AssetKey, path: string) returns (r: Option<Raised>)
      requires log == [] && resumed == [] && !published && successVersion.None? && file.None? && temp.None?
               && demand == d
      modifies `db, `disk, `file, `temp, `offset, `total, `header, `digested, `announced, `resumed, `published,
               `successVersion, `log, `seenDb, `seenDisk
      ensures Orderly()
      ensures r.None? ==> total == |digested| && ProvedBySeen(LinkRow(asset, path, d.mimeType, total, Sha256(digested)))
      ensures r != Some(Service(WriteFailed))
    {
      r := Transfer(fact, d);
      if r.Some? {
        return;
      }
      r := Deliver(asset, path, d.mimeType);
    }

    /** What the caller may conclude from the way the run ends. */
    ghost predicate Accounted(outcome: Outcome)
      reads `cleanup, `digested, `published, `successVersion, `seenDb, `seenDisk, `captured, `loadedRow, `log, `demand
    {
      match outcome
      case Returned(receipt) =>
        && cleanup == UNTOUCHED
        && demand.mimeType == loadedRow.mimeType && demand.expectedBytes == loadedRow.expectedBytes
        && receipt == Receipt(loadedRow.target, |digested|, Sha256(digested), loadedRow.mimeType)
        && ProvedBySeen(LinkRow(loadedRow.asset, receipt.path, receipt.mimeType, receipt.sizeBytes, receipt.sha256))
      case Refused(code) =>
        SettledAs(code) && (code == WriteFailed ==> NothingWrittenSeen(captured))
      case Escaped(_) =>
        log == [] && cleanup == UNTOUCHED
    }

    /** What the run has done: fenced operations in the order of the protocol, and nothing unaccepted linked. */
    ghost predicate Orderly()
      reads `log, `published, `total, `header, `digested, `announced, `resumed, `offset, `demand
    {
      && Guarded() && PhaseOf(log).Some?
      && (published <==> PastLink(PhaseOf(log).value))
      && (published ==> Absorbed() && Announces(digested, announced) && Acceptable(demand, digested, announced))
      && |resumed + AppendedBytes(log)| <= Max(|resumed|, demand.maxBytes)
    }

    /** The attempt and, if it raises, the handler. */
    method AttemptAndHandle(fact: DownloadFact, pre: PreState, d: Demand, asset: AssetKey,
                            path: string) returns (outcome: Outcome)
      requires log == [] && resumed == [] && cleanup == UNTOUCHED && !published && successVersion.None? && file.None?
               && temp.None?
      requires captured == pre && demand == d && asset == loadedRow.asset && path == loadedRow.target
      requires d.mimeType == loadedRow.mimeType && d.expectedBytes == loadedRow.expectedBytes
      modifies `db, `disk, `file, `temp, `offset, `total, `header, `digested, `announced, `resumed, `published,
               `successVersion, `log,
               `seenDb, `seenDisk, `cleanup
      ensures Orderly() && Accounted(outcome)
    {
      var raised := Attempt(fact, d, asset, path);
      outcome := Conclude(raised, pre, LinkRow(asset, path, d.mimeType, total, Sha256(digested)));
    }

    method Conclude(raised: Option<Raised>, pre: PreState, expected: LinkRow) returns (outcome: Outcome)
      requires cleanup == UNTOUCHED && raised != Some(Service(WriteFailed)) && captured == pre
      requires demand.mimeType == loadedRow.mimeType && demand.expectedBytes == loadedRow.expectedBytes
      requires expected.mimeType == demand.mimeType && expected.sha256 == Sha256(digested)
      requires expected.asset == loadedRow.asset && expected.path == loadedRow.target
      requires published ==> expected.sizeBytes == |digested|
      requires raised.None? ==> ProvedBySeen(expected)
      modifies `db, `disk, `seenDb, `seenDisk, `cleanup
      ensures Accounted(outcome) && !outcome.Escaped?
    {
      if raised.None? {
        return Returned(ReceiptOf(expected));
      }
      outcome := Handle(raised.value, pre, expected);
    }

    /** The whole run. */
    method Execute() returns (outcome: Outcome)
      requires log == [] && resumed == [] && cleanup == UNTOUCHED && !published && successVersion.None? && file.None?
               && temp.None?
      modifies this
      ensures Orderly() && Accounted(outcome)
    {
      var lease := AssertLease(true);
      if lease.Some? {
        return Refused(lease.value.code);
      }
      Interfere();
      var row, fact := db.row, db.fact;
      var loaded: bool, adapted: bool, typed: bool := *, *, *;
      if !loaded {
        return Refused(SnapshotChanged);
      }
      if !adapted {
        return Escaped(Unexpected);
      }
      if !typed {
        return Refused(TypeRejected);
      }
      InterfereWithDisk();
      var identity := TargetIdentity(disk);
      if identity.None? {
        return Escaped(Unverified);
      }
      var pre := PreStateOf(row, fact, identity.value);
      var d := Demand(row.mimeType, row.expectedBytes, fact.expectedSha256, fact.maxBytes);
      captured, loadedRow, demand := pre, row, d;
      outcome := AttemptAndHandle(fact, pre, d, row.asset, row.target);
    }
  }

  /** What has been linked stays linked in the account of the run. */
  lemma {:induction false} StillPastLink(before: seq<Op>, after: seq<Op>)
    requires before <= after && PhaseOf(before).Some? && PastLink(PhaseOf(before).value) && PhaseOf(after).Some?
    ensures PastLink(PhaseOf(after).value)
    decreases |after|
  {
    if before != after {
      assert before <= after[..|after| - 1];
      StillPastLink(before, after[..|after| - 1]);
    }
  }
}
