/** The inductive invariant of the download protocol and its preservation by every step. */
module ProtocolInvariant {
  import opened Basics
  import opened Tasks
  import opened Transfer
  import opened Protocol

  /** The temporary file an executor has open or is about to open. */
  function Claim(x: Executor): Option<TempRef> {
    if x.phase.Loaded? then x.phase.seen.temp else x.temp
  }

  ghost predicate Transferring(p: Phase) {
    p.Opened? || p.Streaming? || p.Writing?
  }

  ghost predicate Publishing(p: Phase) {
    p.Checked? || p.Linked? || p.Unlinked?
  }

  ghost predicate AfterPublished(p: Phase) {
    p.Recorded? || p.RowLinked? || p.Indexed? || p.Finished?
  }

  ghost predicate AfterRowLinked(p: Phase) {
    p.RowLinked? || p.Indexed? || p.Finished?
  }

  /** The content the executor has put into its file so far. */
  function Written(x: Executor): Bytes {
    if x.phase.Writing? && x.phase.written <= |x.phase.chunk| then x.digested + x.phase.chunk[..x.phase.written]
        else x.digested
  }

  /** The stages that only the last commit and its downgrade write. */
  ghost predicate FinalStage(stage: Stage) {
    stage == DurableVerified || stage == VerificationUnknown
  }

  ghost predicate Describes(s: State, row: TaskRow, content: Bytes) {
    && row.sha256 == Some(Sha256(content))
    && row.expectedBytes == Some(|content|)
    && Sniffed(s, content) == Some(row.mimeType)
  }

  /** The size and the digest that the plan demands. */
  ghost predicate MeetsPlan(fact: DownloadFact, content: Bytes) {
    && 0 < |content| <= fact.maxBytes
    && (fact.expectedSha256.Some? ==> fact.expectedSha256.value == Sha256(content))
  }

  ghost predicate Structure(s: State) {
    && s.tasks.Keys == s.facts.Keys
    && s.links.Keys <= s.tasks.Keys
    && s.maker.Keys <= s.files.data.Keys
    && s.sealed <= s.maker.Keys
    && (forall name :: name in s.files.temp ==> s.files.temp[name] in s.files.data)
    && (forall name :: name in s.files.media ==> s.files.media[name] in s.files.data)
    && (s.fence.Some? ==> s.fence.value in s.executors && s.executors[s.fence.value].phase.Writing?)
  }

  ghost predicate OwnersDistinct(s: State) {
    forall d, e :: d in s.executors && e in s.executors && d != e ==>
      s.executors[d].task != s.executors[e].task || s.executors[d].generation != s.executors[e].generation
  }

  /** No two runs that linked a target linked the same one. */
  ghost predicate LinkersDistinct(s: State) {
    forall d, e ::
      (d != e && Alive(s, d) && Alive(s, e) && s.executors[d].published && s.executors[e].published) ==>
        Target(s, d) != Target(s, e)
  }

  /** What holds of every executor, superseded or not. */
  ghost predicate ExecutorOk(s: State, e: int)
    requires e in s.executors
  {
    var x := s.executors[e];
    && Alive(s, e)
    && x.generation <= RowOf(s, e).leaseGeneration
    && (Claim(x).Some? ==> Claim(x).value.inode in s.maker && s.maker[Claim(x).value.inode] == x.task)
    && (Transferring(x.phase) || Publishing(x.phase) || AfterPublished(x.phase) ==> x.temp.Some?)
    && (x.phase.Begun? || x.phase.Loaded? ==> x.temp.None?)
    && (x.phase.Opened? && x.created ==> x.digested == [])
    && (!x.phase.Begun? && !x.phase.Ended? ==> x.mimeType == RowOf(s, e).mimeType)
    && (x.phase.Writing? ==>
          && s.fence == Some(e) && Current(s, e)
          && RowOf(s, e).state == Running && RowOf(s, e).leaseOwner == Some(x.owner) && !RowOf(s, e).cancelRequested
          && x.phase.chunk != [] && x.phase.written <= |x.phase.chunk|
          && |x.digested| + |x.phase.chunk| <= FactOf(s, e).maxBytes)
    && (x.published ==> Target(s, e) in s.files.media)
    && (x.phase.Begun? || x.phase.Loaded? || Transferring(x.phase) || x.phase.Checked? ==> !x.published)
    && (x.phase.Linked? || x.phase.Unlinked? || AfterPublished(x.phase) ==> x.published)
    && (x.phase.Unlinked? || AfterPublished(x.phase) ==>
        Target(s, e) in s.files.media && s.files.media[Target(s, e)] == Inode(s, e))
    && (Publishing(x.phase) || AfterPublished(x.phase) ==>
          Sniffed(s, x.digested) == Some(x.mimeType) && MeetsPlan(FactOf(s, e), x.digested))
    && (AfterPublished(x.phase) ==> Inode(s, e) in s.sealed && HasFile(s, e) && s.files.data[Inode(s, e)] == x.digested)
    && (AfterRowLinked(x.phase) ==> x.task in s.links && s.links[x.task] == LinkRowOf(s, e))
  }

  /** What holds in addition of the executor whose generation the row carries. */
  ghost predicate HolderOk(s: State, e: int)
    requires Alive(s, e)
  {
    var x := s.executors[e];
    var row := RowOf(s, e);
    var fact := FactOf(s, e);
    && (x.phase.Loaded? || Transferring(x.phase) || Publishing(x.phase) ==>
          (Claim(x).Some? ==> Claim(x).value.inode !in s.sealed)
          && (fact.temp.Some? ==> !(x.phase.Opened? && x.created) && fact.temp == Claim(x)))
    && (x.phase.Loaded? || Transferring(x.phase) ==> x.expectedBytes == row.expectedBytes)
    && (x.phase.Loaded? && fact.temp.Some? ==> fact.resumeOffset == x.phase.seen.resumeOffset)
    && (Transferring(x.phase) || Publishing(x.phase) ==>
          && HasFile(s, e)
          && s.files.data[Inode(s, e)] == Written(x)
          && (fact.temp.Some? ==> fact.resumeOffset == |x.digested|))
    && (x.phase.Streaming? || x.phase.Writing? ==> row.stage == Downloading || FinalStage(row.stage))
    && (Publishing(x.phase) ==> Describes(s, row, x.digested) && (row.stage == Verified || FinalStage(row.stage)))
    && (AfterPublished(x.phase) ==> Describes(s, row, x.digested) && fact.temp.None?)
  }

  /** A recorded temporary file is never shorter than its committed offset, and longer only for a reason. */
  ghost predicate ResumeOk(s: State, t: int)
    requires t in s.facts
  {
    var fact := s.facts[t];
    fact.temp.Some? ==>
      var i := fact.temp.value.inode;
      && i in s.maker && s.maker[i] == t && i in s.files.data && i !in s.sealed
      && fact.resumeOffset <= |s.files.data[i]|
      && (fact.resumeOffset == |s.files.data[i]| || i in s.cutShort
          || (s.fence.Some? && s.fence.value in s.executors && s.executors[s.fence.value].temp == fact.temp))
  }

  /** A published target names a sealed file; a link row describes it, for good. */
  ghost predicate SealedAt(s: State, path: string) {
    path in s.files.media && s.files.media[path] in s.sealed && s.files.media[path] in s.files.data
  }

  ghost predicate LinkOk(s: State, t: int)
    requires t in s.tasks && t in s.facts
  {
    t in s.links ==>
      && s.links[t].path == s.tasks[t].target
      && SealedAt(s, s.links[t].path)
      && s.links[t].sha256 == Sha256(s.files.data[s.files.media[s.links[t].path]])
      && s.links[t].sizeBytes == |s.files.data[s.files.media[s.links[t].path]]|
      && s.links[t].mimeType == s.tasks[t].mimeType
      && MeetsPlan(s.facts[t], s.files.data[s.files.media[s.links[t].path]])
  }

  /** The stage never claims more than the files and rows bear out. */
  ghost predicate StageOk(s: State, t: int)
    requires t in s.tasks && t in s.facts && Structure(s)
  {
    var row := s.tasks[t];
    var fact := s.facts[t];
    && (row.stage == Verified && fact.temp.Some? ==>
          fact.temp.value.inode in s.files.data && Describes(s, row, s.files.data[fact.temp.value.inode]))
    && (row.stage == Published || row.stage == DbLinked || row.stage == IndexCoordinated ==>
          && fact.temp.None?
          && SealedAt(s, row.target)
          && Describes(s, row, s.files.data[s.files.media[row.target]]))
    && (row.stage == DbLinked || row.stage == IndexCoordinated || row.stage == DurableVerified ==> t in s.links)
    && (row.state == Succeeded ==> row.stage == DurableVerified)
    && (FinalStage(row.stage) ==> row.state == Succeeded || row.state == OutcomeUnknown)
  }

  ghost predicate TaskOk(s: State, t: int)
    requires t in s.tasks && Structure(s)
  {
    Sound(s.tasks[t]) && ResumeOk(s, t) && LinkOk(s, t) && StageOk(s, t)
  }

  ghost predicate Inv(s: State) {
    && Structure(s)
    && OwnersDistinct(s)
    && LinkersDistinct(s)
    && (forall e :: e in s.executors ==> ExecutorOk(s, e))
    && (forall e :: e in s.executors && Current(s, e) ==> HolderOk(s, e))
    && (forall t :: t in s.tasks ==> TaskOk(s, t))
  }

  lemma InitialInv(s: State)
    requires Initial(s)
    ensures Inv(s)
  {
  }
}
