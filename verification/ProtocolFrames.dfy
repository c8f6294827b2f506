/** What a step leaves alone: permanence of published facts, and the frame around one executor's step. */
module ProtocolFrames {
  import opened Basics
  import opened Tasks
  import opened Transfer
  import opened Protocol
  import opened ProtocolInvariant

  /** The part of a row that only a `verified` commit writes. */
  ghost predicate SameContentFacts(a: TaskRow, b: TaskRow) {
    a.sha256 == b.sha256 && a.expectedBytes == b.expectedBytes && a.mimeType == b.mimeType
  }

  /** What the plan demands of the content stays the same. */
  ghost predicate SameLimits(a: DownloadFact, b: DownloadFact) {
    a.maxBytes == b.maxBytes && a.expectedSha256 == b.expectedSha256
  }

  /** A row keeps its identity and a terminal state, and its generation never decreases. */
  ghost predicate RowGrows(a: TaskRow, b: TaskRow) {
    && a.asset == b.asset && a.target == b.target && a.mimeType == b.mimeType && a.leaseGeneration <= b.leaseGeneration
    && (Terminal(a.state) ==> Terminal(b.state))
  }

  /** Rows keep their identity, facts their limits, and link rows stay. */
  ghost predicate PermanentRows(s: State, r: State) {
    && (forall t :: t in s.tasks ==> t in r.tasks && RowGrows(s.tasks[t], r.tasks[t]))
    && (forall t :: t in s.facts ==> t in r.facts && SameLimits(s.facts[t], r.facts[t]))
    && (forall t :: t in s.links ==> t in r.links && r.links[t] == s.links[t])
  }

  /** Names in the media directory stay, contents only grow, and sealed ones do not even that. */
  ghost predicate PermanentFiles(s: State, r: State) {
    && r.sniff == s.sniff
    && (forall name :: name in s.files.media ==> name in r.files.media && r.files.media[name] == s.files.media[name])
    && (forall i :: i in s.maker ==> i in r.maker && r.maker[i] == s.maker[i])
    && (forall i :: i in s.files.data ==> i in r.files.data && s.files.data[i] <= r.files.data[i])
    && (forall i :: i in s.sealed ==> i in r.sealed && (i in s.files.data ==> r.files.data[i] == s.files.data[i]))
    && s.cutShort <= r.cutShort
  }

  /** Executors keep their task and generation, and what they have linked. */
  ghost predicate PermanentRuns(s: State, r: State) {
    forall e :: e in s.executors ==>
      && e in r.executors && r.executors[e].task == s.executors[e].task
      && r.executors[e].generation == s.executors[e].generation
      && r.executors[e].owner == s.executors[e].owner
      && (s.executors[e].published ==> r.executors[e].published)
  }

  /** What no step of anybody takes back. */
  ghost predicate Permanent(s: State, r: State) {
    PermanentRows(s, r) && PermanentFiles(s, r) && PermanentRuns(s, r)
  }

  /** No file of the download gains a byte. */
  ghost predicate SameData(s: State, r: State) {
    forall i :: i in s.files.data ==> i in r.files.data && r.files.data[i] == s.files.data[i]
  }

  /** No stage, fact or link row changes. */
  ghost predicate SameRecords(s: State, r: State) {
    && r.links == s.links
    && (forall t :: t in s.facts ==> t in r.facts && r.facts[t] == s.facts[t])
    && (forall t :: t in s.tasks ==> t in r.tasks && r.tasks[t].stage == s.tasks[t].stage)
  }

  lemma ExecutorKept(s: State, r: State, d: int)
    requires Inv(s) && Structure(s) && Permanent(s, r)
    requires d in s.executors && d in r.executors && r.executors[d] == s.executors[d]
    requires s.executors[d].phase.Writing? ==>
             r.fence == s.fence && Alive(s, d) && Alive(r, d) && RowOf(r, d) == RowOf(s, d)
    ensures ExecutorOk(r, d)
  {
    assert ExecutorOk(s, d);
  }

  /** The row and fact of a current executor, as far as other executors can change them. */
  ghost predicate HolderFrame(s: State, r: State, t: int)
    requires t in s.tasks && t in s.facts && t in r.tasks && t in r.facts
  {
    && SameContentFacts(s.tasks[t], r.tasks[t])
    && (r.tasks[t].stage == s.tasks[t].stage || FinalStage(r.tasks[t].stage))
    && (r.facts[t] == s.facts[t] || r.facts[t] == s.facts[t].(temp := None, resumeOffset := 0))
  }

  lemma HolderKept(s: State, r: State, d: int)
    requires Inv(s) && Permanent(s, r)
    requires d in s.executors && d in r.executors && r.executors[d] == s.executors[d] && Alive(s, d) && Alive(r, d)
    requires Current(r, d)
    requires HolderFrame(s, r, s.executors[d].task)
    requires Claim(s.executors[d]).Some? ==>
               var i := Claim(s.executors[d]).value.inode;
               (i in r.sealed ==> i in s.sealed) && (i in s.files.data ==> r.files.data[i] == s.files.data[i])
    ensures HolderOk(r, d)
  {
    assert ExecutorOk(s, d);
    assert Current(s, d);
    assert HolderOk(s, d);
  }

  lemma TaskKept(s: State, r: State, t: int)
    requires Structure(s) && Structure(r) && Permanent(s, r)
    requires t in s.tasks && TaskOk(s, t) && t in r.tasks && r.tasks[t] == s.tasks[t] && r.facts[t] == s.facts[t]
    requires t in r.links ==> t in s.links
    requires s.facts[t].temp.Some? ==>
               var i := s.facts[t].temp.value.inode;
               && (i in r.sealed ==> i in s.sealed)
               && (i in s.files.data ==> r.files.data[i] == s.files.data[i])
               && (s.fence.Some? && s.fence.value in s.executors
                   && s.executors[s.fence.value].temp == s.facts[t].temp ==>
                     r.fence == s.fence && r.executors[s.fence.value].temp == s.facts[t].temp)
    ensures TaskOk(r, t)
  {
  }

  /** The frame of a step that one executor takes. */
  ghost predicate OnlyTouches(s: State, r: State, e: int)
    requires e in s.executors && Alive(s, e)
  {
    var x := s.executors[e];
    && r.executors.Keys == s.executors.Keys
    && (forall d :: d in s.executors && d != e ==> r.executors[d] == s.executors[d])
    && r.executors[e].task == x.task && r.executors[e].generation == x.generation
    && r.tasks.Keys == s.tasks.Keys && r.facts.Keys == s.facts.Keys
    && (forall t :: t in s.tasks && t != x.task ==> r.tasks[t] == s.tasks[t])
    && (forall t :: t in s.facts && t != x.task ==> r.facts[t] == s.facts[t])
    && (forall t :: t in r.links && t != x.task ==> t in s.links)
    && (forall i :: i in s.files.data ==> i in r.files.data)
    && (forall i :: i in s.files.data ==>
          r.files.data[i] == s.files.data[i] || (x.phase.Writing? && x.temp.Some? && i == x.temp.value.inode))
    && (forall i :: i in r.sealed && i !in s.sealed ==> Current(s, e) && x.temp.Some? && i == x.temp.value.inode)
    && (s.fence != Some(e) ==> r.fence == s.fence || (s.fence.None? && r.fence == Some(e)))
    && (s.fence.Some? && s.fence != Some(e) ==> r.tasks == s.tasks)
    && r.tasks[x.task].leaseGeneration == s.tasks[x.task].leaseGeneration
    && (!Current(s, e) ==>
         && HolderFrame(s, r, x.task)
         && (r.tasks[x.task].state == Running ==> r.tasks[x.task] == s.tasks[x.task]))
    && r.now == s.now
  }

  lemma OtherExecutorsKept(s: State, r: State, e: int, d: int)
    requires Inv(s) && Alive(s, e) && OnlyTouches(s, r, e) && Permanent(s, r)
    requires d in s.executors && d != e
    ensures ExecutorOk(r, d) && (Current(r, d) ==> HolderOk(r, d))
  {
    var x := s.executors[e];
    assert ExecutorOk(s, e) && ExecutorOk(s, d);
    ExecutorKept(s, r, d);
    if Current(r, d) {
      assert Current(s, d);
      if s.executors[d].task == x.task {
        assert !Current(s, e);
      }
      HolderKept(s, r, d);
    }
  }

  lemma OtherTasksKept(s: State, r: State, e: int, t: int)
    requires Structure(s) && Alive(s, e) && OnlyTouches(s, r, e) && Permanent(s, r) && Structure(r)
    requires ExecutorOk(s, e)
    requires t in s.tasks && t != s.executors[e].task && TaskOk(s, t)
    ensures TaskOk(r, t)
  {
    if s.facts[t].temp.Some? {
      var i := s.facts[t].temp.value.inode;
      assert ResumeOk(s, t);
      assert s.executors[e].temp.Some? ==> s.executors[e].temp.value.inode != i by {
        assert s.executors[e].temp.Some? && !s.executors[e].phase.Loaded? ==>
               Claim(s.executors[e]) == s.executors[e].temp;
      }
      assert r.files.data[i] == s.files.data[i];
      assert s.executors[e].temp != s.facts[t].temp;
      assert i in r.sealed ==> i in s.sealed;
      if s.fence.Some? && s.fence.value in s.executors && s.executors[s.fence.value].temp == s.facts[t].temp {
        assert s.fence.value != e;
        assert r.fence == s.fence;
        assert r.executors[s.fence.value] == s.executors[s.fence.value];
      }
    }
    TaskKept(s, r, t);
  }

  lemma LinkersKept(s: State, r: State, e: int)
    requires LinkersDistinct(s) && OwnersDistinct(s) && Alive(s, e) && OnlyTouches(s, r, e) && Permanent(s, r)
    requires forall d :: d in s.executors ==> ExecutorOk(s, d)
    requires r.executors[e].published && !s.executors[e].published ==> Target(s, e) !in s.files.media
    ensures LinkersDistinct(r) && OwnersDistinct(r)
  {
    forall a, b | a != b && Alive(r, a) && Alive(r, b) && r.executors[a].published && r.executors[b].published
      ensures Target(r, a) != Target(r, b)
    {
      LinkerPairKept(s, r, e, a, b);
    }
  }

  lemma LinkerPairKept(s: State, r: State, e: int, a: int, b: int)
    requires LinkersDistinct(s) && Alive(s, e) && OnlyTouches(s, r, e)
    requires a != b && a in s.executors && b in s.executors && ExecutorOk(s, a) && ExecutorOk(s, b)
    requires forall d :: Alive(s, d) && Alive(r, d) ==> Target(r, d) == Target(s, d)
    requires Alive(r, a) && Alive(r, b) && r.executors[a].published && r.executors[b].published
    requires r.executors[e].published && !s.executors[e].published ==> Target(s, e) !in s.files.media
    ensures Target(r, a) != Target(r, b)
  {
  }

  /** It is enough to look at the executor that moved and at its task. */
  lemma StepOfExecutor(s: State, r: State, e: int)
    requires Inv(s) && Alive(s, e)
    requires OnlyTouches(s, r, e) && Permanent(s, r) && Structure(r)
    requires ExecutorOk(r, e) && (Current(r, e) ==> HolderOk(r, e))
    requires TaskOk(r, s.executors[e].task)
    requires r.executors[e].published && !s.executors[e].published ==> Target(s, e) !in s.files.media
    ensures Inv(r)
  {
    LinkersKept(s, r, e);
    forall d | d in r.executors && d != e
      ensures ExecutorOk(r, d) && (Current(r, d) ==> HolderOk(r, d))
    {
      OtherExecutorsKept(s, r, e, d);
    }
    forall t | t in r.tasks && t != s.executors[e].task
      ensures TaskOk(r, t)
    {
      OtherTasksKept(s, r, e, t);
    }
  }

  /** The part of the invariant that concerns one executor and its task. */
  ghost predicate Local(s: State, e: int) {
    && Structure(s)
    && e in s.executors
    && ExecutorOk(s, e)
    && (Current(s, e) ==> HolderOk(s, e))
    && TaskOk(s, s.executors[e].task)
  }

  /** A step of one executor that keeps its own part and disturbs nobody else's. */
  ghost predicate GoodStep(s: State, r: State, e: int) {
    && Alive(s, e)
    && OnlyTouches(s, r, e) && Permanent(s, r)
    && Local(r, e)
    && (r.executors[e].published && !s.executors[e].published ==> Target(s, e) !in s.files.media)
  }

  lemma GoodStepKeeps(s: State, r: State, e: int)
    requires Inv(s) && e in s.executors && GoodStep(s, r, e)
    ensures Inv(r)
  {
    StepOfExecutor(s, r, e);
  }
}
