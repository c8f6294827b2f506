/** The imperative executor and the state machine agree: what the one commits is what the other's step does. */
module Simulation {
  import opened Basics
  import opened Tasks
  import opened Transfer
  import opened Protocol
  import opened ProtocolInvariant
  import opened ProtocolFrames
  import opened ProtocolShapes
  import opened ProtocolSteps
  import opened ProtocolTheorems
  import D = Downloader

  /** The machine is where the executor's session is: same time, same row and fact, and no write transaction open. */
  ghost predicate Mirrors(s: State, e: int, db: D.Database) {
    && Alive(s, e) && s.fence.None? && s.now == db.now && RowOf(s, e) == db.row && FactOf(s, e) == db.fact
  }

  /** What the executor lets be committed with a stage. */
  ghost predicate Brings(s: State, e: int, stage: Stage, pending: D.Pending)
    requires Alive(s, e)
  {
    var x := s.executors[e];
    pending == match stage
               case Downloading => D.Pending(None, if x.created then Some(x.temp) else None, None)
               case Verified => D.Pending(Some((Sha256(x.digested), x.mimeType)), None, None)
               case Published => D.Pending(None, Some(None), None)
               case DbLinked => D.Pending(None, None, Some(LinkRowOf(s, e)))
               case _ => D.NOTHING
  }

  /** What a stage demands besides the lease. */
  ghost predicate Admitted(s: State, e: int, stage: Stage)
    requires Alive(s, e)
  {
    var x := s.executors[e];
    match stage
    case Downloading => x.created || FactOf(s, e).temp.Some?
    case Verified =>
      && |x.digested| != x.offset
      && Acceptable(Demand(x.mimeType, x.expectedBytes, FactOf(s, e).expectedSha256, FactOf(s, e).maxBytes),
                    x.digested, Sniffed(s, x.digested))
      && x.temp.Some? && LinkCount(s.files, Inode(s, e)) == 1
    case DbLinked =>
      && x.task !in s.links
      && forall t :: t in s.links ==> s.links[t].path != Target(s, e) && !SameAsset(s.links[t].asset, RowOf(s, e).asset)
    case Published => HasFile(s, e)
    case _ => true
  }

  function StampStep(e: int, stage: Stage, ttl: nat, ending: Ending): Step {
    match stage
    case Downloading => CommitDownloading(e, ttl, ending)
    case Verified => CommitVerified(e, ttl, ending)
    case Published => CommitPublished(e, ttl, ending)
    case DbLinked => CommitDbLinked(e, ttl, ending)
    case _ => CommitIndexed(e, ttl, ending)
  }

  /** Where a commit that ends so leaves the executor. */
  function Landing(target: Phase, ending: Ending): Phase {
    if ending.Acked? then target else Failing(ProviderError)
  }

  /** What a commit that ends so leaves in the database. */
  function Left(before: D.Database, after: D.Database, ending: Ending): D.Database {
    if ending.RaisedBefore? then before else after
  }

  /** The lifetime of the lease that a heartbeat has committed. */
  function Lifetime(before: D.Database, after: D.Database): nat {
    if after.row.leaseExpiresAt.Some? && before.now <= after.row.leaseExpiresAt.value
    then after.row.leaseExpiresAt.value - before.now else 0
  }

  /** The conditions under which the executor stamps a stage, seen from the machine. */
  ghost predicate Stamps(s: State, e: int, stage: Stage, pending: D.Pending, before: D.Database, after: D.Database) {
    && Mirrors(s, e, before) && Local(s, e)
    && var x := s.executors[e];
       && D.GuardedBy(D.Stamped(stage, pending, before, after), x.owner, x.generation)
       && D.NextPhase(x.phase, D.Stamped(stage, pending, before, after)).Some?
       && Brings(s, e, stage, pending) && Admitted(s, e, stage) && after.row.bytesProcessed == |x.digested|
  }

  /** What the machine has after the step. */
  ghost predicate Arrives(r: State, e: int, after: D.Database, p: Phase) {
    && Alive(r, e) && r.fence.None? && RowOf(r, e) == after.row && FactOf(r, e) == after.fact
       && r.executors[e].phase == p
  }

  /** Of the executor only the phase has changed. */
  ghost predicate OnlyPhase(s: State, r: State, e: int) {
    e in s.executors && e in r.executors && r.executors[e] == s.executors[e].(phase := r.executors[e].phase)
  }

  /** The executor's commit, with the lease held before it and everything pending written out. */
  ghost predicate Commits(s: State, e: int, stage: Stage, pending: D.Pending, ttl: nat, before: D.Database,
                          after: D.Database) {
    && Mirrors(s, e, before) && 5 <= ttl <= 300
    && HoldsLease(before.row, s.executors[e].owner, s.executors[e].generation, before.now)
    && after == D.Progressed(before, stage, |s.executors[e].digested|, ttl, pending)
  }

  lemma DownloadingIsAStep(s: State, e: int, pending: D.Pending, ttl: nat, before: D.Database, after: D.Database,
                           ending: Ending)
    requires Commits(s, e, Downloading, pending, ttl, before, after) && s.executors[e].phase == Opened
    requires HasFile(s, e) && Brings(s, e, Downloading, pending)
    requires if s.executors[e].created then s.executors[e].digested == []
             else FactOf(s, e).resumeOffset == |s.executors[e].digested|
    ensures CanCommitDownloading(s, e, ttl)
            && Arrives(DoCommitDownloading(s, e, ttl, ending), e, Left(before, after, ending),
                       Landing(Streaming, ending))
            && OnlyPhase(s, DoCommitDownloading(s, e, ttl, ending), e)
  {
  }

  lemma VerifiedIsAStep(s: State, e: int, pending: D.Pending, ttl: nat, before: D.Database, after: D.Database,
                        ending: Ending)
    requires Commits(s, e, Verified, pending, ttl, before, after) && s.executors[e].phase == Streaming
    requires HasFile(s, e) && Brings(s, e, Verified, pending) && Admitted(s, e, Verified)
    requires FactOf(s, e).temp.Some? ==> FactOf(s, e).temp.value.inode == Inode(s, e)
    ensures CanCommitVerified(s, e, ttl)
            && Arrives(DoCommitVerified(s, e, ttl, ending), e, Left(before, after, ending), Landing(Checked, ending))
            && OnlyPhase(s, DoCommitVerified(s, e, ttl, ending), e)
  {
  }

  lemma PublishedIsAStep(s: State, e: int, pending: D.Pending, ttl: nat, before: D.Database, after: D.Database,
                         ending: Ending)
    requires Commits(s, e, Published, pending, ttl, before, after) && s.executors[e].phase == Unlinked
    requires HasFile(s, e) && Brings(s, e, Published, pending)
    ensures CanCommitPublished(s, e, ttl)
            && Arrives(DoCommitPublished(s, e, ttl, ending), e, Left(before, after, ending), Landing(Recorded, ending))
            && OnlyPhase(s, DoCommitPublished(s, e, ttl, ending), e)
  {
  }

  lemma DbLinkedIsAStep(s: State, e: int, pending: D.Pending, ttl: nat, before: D.Database, after: D.Database,
                        ending: Ending)
    requires Commits(s, e, DbLinked, pending, ttl, before, after) && s.executors[e].phase == Recorded
    requires Brings(s, e, DbLinked, pending) && Admitted(s, e, DbLinked)
    ensures CanCommitDbLinked(s, e, ttl)
            && Arrives(DoCommitDbLinked(s, e, ttl, ending), e, Left(before, after, ending), Landing(RowLinked, ending))
            && OnlyPhase(s, DoCommitDbLinked(s, e, ttl, ending), e)
    ensures CanCommitDbLinked(s, e, ttl)
            && (!ending.RaisedBefore? ==>
                  DoCommitDbLinked(s, e, ttl, ending).links == s.links[s.executors[e].task := pending.link.value])
  {
  }

  lemma IndexCoordinatedIsAStep(s: State, e: int, pending: D.Pending, ttl: nat, before: D.Database, after: D.Database,
                                ending: Ending)
    requires Commits(s, e, IndexCoordinated, pending, ttl, before, after) && s.executors[e].phase == RowLinked
    requires Brings(s, e, IndexCoordinated, pending)
    ensures CanCommitIndexed(s, e, ttl)
            && Arrives(DoCommitIndexed(s, e, ttl, ending), e, Left(before, after, ending), Landing(Indexed, ending))
            && OnlyPhase(s, DoCommitIndexed(s, e, ttl, ending), e)
  {
  }

  lemma StampCommits(s: State, e: int, stage: Stage, pending: D.Pending, before: D.Database, after: D.Database)
    requires Stamps(s, e, stage, pending, before, after)
    ensures Commits(s, e, stage, pending, Lifetime(before, after), before, after)
  {
  }

  lemma HolderHasFile(s: State, e: int)
    requires Local(s, e) && Current(s, e)
    requires Transferring(s.executors[e].phase) || Publishing(s.executors[e].phase)
    ensures HasFile(s, e) && (FactOf(s, e).temp.Some? ==> FactOf(s, e).temp == s.executors[e].temp)
    ensures s.executors[e].phase.Opened? && s.executors[e].created ==> s.executors[e].digested == []
    ensures FactOf(s, e).temp.Some? ==> FactOf(s, e).resumeOffset == |s.executors[e].digested|
  {
  }

  lemma AfterCommitDownloading(s: State, e: int, ttl: nat, ending: Ending)
    requires CanCommitDownloading(s, e, ttl)
    ensures After(s, CommitDownloading(e, ttl, ending)) == DoCommitDownloading(s, e, ttl, ending)
  {
  }

  /** The phase that a stamp leads from, and to. */
  lemma StampPhases(p: Phase, stage: Stage, pending: D.Pending, before: D.Database, after: D.Database)
    requires D.NextPhase(p, D.Stamped(stage, pending, before, after)).Some?
    ensures var q := D.NextPhase(p, D.Stamped(stage, pending, before, after)).value;
            || (stage == Downloading && p == Opened && q == Streaming)
            || (stage == Verified && p == Streaming && q == Checked)
            || (stage == Published && p == Unlinked && q == Recorded)
            || (stage == DbLinked && p == Recorded && q == RowLinked)
            || (stage == IndexCoordinated && p == RowLinked && q == Indexed)
  {
  }

  /**
   Every stamp of the executor is the step of the machine for that stage, with the same lifetime of the lease and the
   same ending.
   */
  lemma StampIsAStep(s: State, e: int, stage: Stage, pending: D.Pending, before: D.Database, after: D.Database,
                     ending: Ending)
    requires Stamps(s, e, stage, pending, before, after)
    ensures var r := After(s, StampStep(e, stage, Lifetime(before, after), ending));
            var p := D.NextPhase(s.executors[e].phase, D.Stamped(stage, pending, before, after)).value;
            && Arrives(r, e, Left(before, after, ending), Landing(p, ending)) && OnlyPhase(s, r, e)
            && (stage == DbLinked && !ending.RaisedBefore? ==>
                  r.links == s.links[s.executors[e].task := pending.link.value])
  {
    var ttl := Lifetime(before, after);
    StampPhases(s.executors[e].phase, stage, pending, before, after);
    StampCommits(s, e, stage, pending, before, after);
    if stage == Downloading {
      HolderHasFile(s, e);
      DownloadingIsAStep(s, e, pending, ttl, before, after, ending);
      AfterCommitDownloading(s, e, ttl, ending);
    } else if stage == Verified {
      HolderHasFile(s, e);
      VerifiedIsAStep(s, e, pending, ttl, before, after, ending);
      AfterCommitVerified(s, e, ttl, ending);
    } else if stage == Published {
      HolderHasFile(s, e);
      PublishedIsAStep(s, e, pending, ttl, before, after, ending);
      AfterCommitPublished(s, e, ttl, ending);
    } else if stage == DbLinked {
      DbLinkedIsAStep(s, e, pending, ttl, before, after, ending);
      AfterCommitDbLinked(s, e, ttl, ending);
    } else {
      IndexCoordinatedIsAStep(s, e, pending, ttl, before, after, ending);
      AfterCommitIndexed(s, e, ttl, ending);
    }
  }

  // ---------------------------------------------------------------- a chunk

  function Sum(counts: seq<nat>): nat {
    if counts == [] then 0 else counts[0] + Sum(counts[1..])
  }

  function Writes(e: int, counts: seq<nat>): seq<Step> {
    seq(|counts|, i requires 0 <= i < |counts| => WriteSome(e, counts[i]))
  }

  /** So much more of the chunk is in the file. */
  ghost function Wrote(s: State, e: int, n: nat): State
    requires s.executors.Keys >= {e} && s.executors[e].phase.Writing? && HasFile(s, e)
    requires s.executors[e].phase.written + n <= |s.executors[e].phase.chunk|
  {
    var x := s.executors[e];
    var piece := x.phase.chunk[x.phase.written..x.phase.written + n];
    Moved(s.(files := s.files.(data := s.files.data[Inode(s, e) := s.files.data[Inode(s, e)] + piece])),
          e, x.phase.(written := x.phase.written + n))
  }

  lemma WroteNothing(s: State, e: int)
    requires Alive(s, e) && s.executors[e].phase.Writing? && HasFile(s, e)
    requires s.executors[e].phase.written <= |s.executors[e].phase.chunk|
    ensures Wrote(s, e, 0) == s
  {
    var i, x := Inode(s, e), s.executors[e];
    assert s.files.data[i] + x.phase.chunk[x.phase.written..x.phase.written + 0] == s.files.data[i];
    assert s.files.data[i := s.files.data[i]] == s.files.data && s.executors[e := x] == s.executors;
  }

  lemma WroteMore(s: State, e: int, m: nat, n: nat)
    requires Alive(s, e) && s.executors[e].phase.Writing? && HasFile(s, e)
    requires s.executors[e].phase.written + m + n <= |s.executors[e].phase.chunk|
    ensures HasFile(Wrote(s, e, m), e) && Wrote(Wrote(s, e, m), e, n) == Wrote(s, e, m + n)
  {
    var i, x := Inode(s, e), s.executors[e];
    var w := x.phase.written;
    var first, second := x.phase.chunk[w..w + m], x.phase.chunk[w + m..w + m + n];
    assert first + second == x.phase.chunk[w..w + m + n];
    assert s.files.data[i] + first + second == s.files.data[i] + x.phase.chunk[w..w + m + n];
    assert Wrote(Wrote(s, e, m), e, n).files.data == Wrote(s, e, m + n).files.data;
    assert Wrote(Wrote(s, e, m), e, n).executors == Wrote(s, e, m + n).executors;
  }

  /** However the writes are split, the whole chunk ends up in the file once. */
  lemma {:induction false} WritesAddUp(s: State, e: int, counts: seq<nat>)
    requires Alive(s, e) && s.executors[e].phase.Writing? && HasFile(s, e) && forall c :: c in counts ==> 1 <= c
    requires s.executors[e].phase.written + Sum(counts) <= |s.executors[e].phase.chunk|
    ensures Run(s, Writes(e, counts)) == Wrote(s, e, Sum(counts))
    decreases |counts|
  {
    if counts == [] {
      WroteNothing(s, e);
    } else {
      var r := Wrote(s, e, counts[0]);
      assert counts[0] in counts && r == DoWriteSome(s, e, counts[0]) && CanWriteSome(s, e, counts[0]);
      assert Writes(e, counts)[0] == WriteSome(e, counts[0]) && Writes(e, counts)[1..] == Writes(e, counts[1..]);
      WroteMore(s, e, counts[0], Sum(counts[1..]));
      assert forall c :: c in counts[1..] ==> c in counts;
      WritesAddUp(r, e, counts[1..]);
    }
  }

  /** Heartbeat, write calls and commit of one chunk. */
  function ChunkSteps(e: int, ttl: nat, chunk: Bytes, counts: seq<nat>, ending: Ending): seq<Step> {
    [Receive(e, ttl, chunk)] + Writes(e, counts) + [CommitChunk(e, ending)]
  }

  lemma ReceiveIsAStep(s: State, e: int, ttl: nat, chunk: Bytes)
    requires CanReceive(s, e, ttl, chunk)
    ensures Run(s, [Receive(e, ttl, chunk)]) == DoReceive(s, e, ttl, chunk)
  {
    assert [Receive(e, ttl, chunk)][1..] == [];
  }

  lemma CommitChunkIsAStep(s: State, e: int, ending: Ending)
    requires CanCommitChunk(s, e)
    ensures Run(s, [CommitChunk(e, ending)]) == DoCommitChunk(s, e, ending)
  {
    assert [CommitChunk(e, ending)][1..] == [];
  }

  lemma ReceivedInFull(s: State, e: int, ttl: nat, chunk: Bytes)
    requires CanReceive(s, e, ttl, chunk) && HasFile(s, e)
    ensures var r := DoReceive(s, e, ttl, chunk);
            && Alive(r, e) && r.executors[e].phase == Writing(chunk, 0, s.now + ttl) && HasFile(r, e)
            && Inode(r, e) == Inode(s, e)
            && var w := Wrote(r, e, |chunk|);
               && CanCommitChunk(w, e) && w.tasks == s.tasks && w.facts == s.facts && w.fence == Some(e)
               && w.executors[e] == s.executors[e].(phase := Writing(chunk, |chunk|, s.now + ttl))
               && w.files.data == s.files.data[Inode(s, e) := s.files.data[Inode(s, e)] + chunk]
  {
    assert chunk[0..0 + |chunk|] == chunk;
  }

  /** The executor after the commit of a chunk. */
  function Took(x: Executor, chunk: Bytes, ending: Ending): Executor {
    x.(digested := if ending.RaisedBefore? then x.digested else x.digested + chunk, phase := Landing(Streaming, ending))
  }

  lemma ChunkArrives(w: State, e: int, before: D.Database, ttl: nat, after: D.Database, ending: Ending)
    requires CanCommitChunk(w, e) && w.fence == Some(e) && w.executors[e].phase.until == before.now + ttl
    requires RowOf(w, e) == before.row && FactOf(w, e) == before.fact
    requires after == D.Progressed(before, Downloading, |w.executors[e].digested + w.executors[e].phase.chunk|, ttl,
                                   D.NOTHING)
    ensures var r := DoCommitChunk(w, e, ending);
            && Arrives(r, e, Left(before, after, ending), Landing(Streaming, ending))
            && r.executors[e] == Took(w.executors[e], w.executors[e].phase.chunk, ending) && r.files == w.files
  {
  }

  lemma OffsetIsProgress(owner: string, generation: nat, before: D.Database, after: D.Database)
    requires D.GuardedBy(D.OffsetCommitted(before, after), owner, generation)
    ensures HoldsLease(before.row, owner, generation, before.now)
    ensures after.row.leaseExpiresAt.Some? && 5 <= after.row.leaseExpiresAt.value - before.now <= 300
    ensures after == D.Progressed(before, Downloading, after.row.bytesProcessed,
                                  after.row.leaseExpiresAt.value - before.now, D.NOTHING)
  {
  }

  lemma ChunkRun(s: State, e: int, ttl: nat, chunk: Bytes, counts: seq<nat>, ending: Ending)
    requires CanReceive(s, e, ttl, chunk) && HasFile(s, e)
    requires Sum(counts) == |chunk| && forall c :: c in counts ==> 1 <= c
    ensures var r := DoReceive(s, e, ttl, chunk);
            && Alive(r, e) && r.executors[e].phase == Writing(chunk, 0, s.now + ttl) && HasFile(r, e)
            && CanCommitChunk(Wrote(r, e, |chunk|), e)
            && Run(s, ChunkSteps(e, ttl, chunk, counts, ending)) == DoCommitChunk(Wrote(r, e, |chunk|), e, ending)
  {
    var received := DoReceive(s, e, ttl, chunk);
    ReceivedInFull(s, e, ttl, chunk);
    ReceiveIsAStep(s, e, ttl, chunk);
    WritesAddUp(received, e, counts);
    CommitChunkIsAStep(Wrote(received, e, |chunk|), e, ending);
    RunAppends(s, [Receive(e, ttl, chunk)], Writes(e, counts));
    RunAppends(s, [Receive(e, ttl, chunk)] + Writes(e, counts), [CommitChunk(e, ending)]);
  }

  /** The commit of an offset by the executor is, with the heartbeat and the writes before it, a run of the machine. */
  lemma ChunkIsARun(s: State, e: int, chunk: Bytes, counts: seq<nat>, before: D.Database, after: D.Database,
                    ending: Ending)
    requires Mirrors(s, e, before) && s.executors[e].phase.Streaming? && HasFile(s, e)
    requires D.GuardedBy(D.OffsetCommitted(before, after), s.executors[e].owner, s.executors[e].generation)
    requires chunk != [] && |s.executors[e].digested + chunk| <= FactOf(s, e).maxBytes
    requires after.row.bytesProcessed == |s.executors[e].digested + chunk|
    requires Sum(counts) == |chunk| && forall c :: c in counts ==> 1 <= c
    ensures var r := Run(s, ChunkSteps(e, Lifetime(before, after), chunk, counts, ending));
            && Arrives(r, e, Left(before, after, ending), Landing(Streaming, ending))
            && r.executors[e] == Took(s.executors[e], chunk, ending)
            && r.files.data == s.files.data[Inode(s, e) := s.files.data[Inode(s, e)] + chunk]
  {
    OffsetIsProgress(s.executors[e].owner, s.executors[e].generation, before, after);
    var ttl := Lifetime(before, after);
    assert CanReceive(s, e, ttl, chunk);
    ReceivedInFull(s, e, ttl, chunk);
    ChunkRun(s, e, ttl, chunk, counts, ending);
    ChunkArrives(Wrote(DoReceive(s, e, ttl, chunk), e, |chunk|), e, before, ttl, after, ending);
  }
}
