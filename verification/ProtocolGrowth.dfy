/** Which recorded temporary files can still gain bytes. */
module ProtocolGrowth {
  import opened Basics
  import opened Tasks
  import opened Transfer
  import opened Protocol
  import opened ProtocolInvariant
  import opened ProtocolFrames
  import opened ProtocolShapes
  import opened ProtocolSteps
  import opened ProtocolTheorems
  import opened ProtocolLimits
  import opened ProtocolBars
  import opened ProtocolRecovery

  // ---------------------------------------------------------------- a remembered name is the only one

  ghost predicate Named(s: State, ref: TempRef) {
    && ref.inode in s.files.data
    && forall name :: name in s.files.temp && s.files.temp[name] == ref.inode ==> name == ref.name
  }

  /** Facts and executors remember an inode by the only temporary name it can have. */
  ghost predicate WellNamed(s: State) {
    && (forall t :: t in s.facts && s.facts[t].temp.Some? ==> Named(s, s.facts[t].temp.value))
    && (forall e :: e in s.executors && Claim(s.executors[e]).Some? ==> Named(s, Claim(s.executors[e]).value))
  }

  lemma NamedStays(s: State, r: State, ref: TempRef)
    requires Permanent(s, r) && NamesFollow(s, r) && Named(s, ref)
    ensures Named(r, ref)
  {
  }

  lemma LoadRemembers(s: State, e: int)
    requires CanLoad(s, e)
    ensures e in DoLoad(s, e).executors && Claim(DoLoad(s, e).executors[e]) == FactOf(s, e).temp
  {
  }

  lemma OpenRemembers(s: State, e: int, name: string, inode: int)
    requires Local(s, e) && CanOpen(s, e, name, inode)
    ensures var r := DoOpen(s, e, name, inode);
            && e in r.executors
            && (Claim(r.executors[e]).Some? ==>
                  Claim(r.executors[e]) == Claim(s.executors[e]) || Named(r, Claim(r.executors[e]).value))
  {
  }

  lemma MoveRemembers(step: Step, x: Executor, y: Executor)
    requires Moves(step, x, y) && !step.Load? && !step.Open? && (x.phase.Loaded? ==> x.temp.None?)
    ensures Claim(y).Some? ==> Claim(y) == Claim(x)
  {
  }

  lemma LoadNamed(s: State, e: int)
    requires Inv(s) && WellNamed(s) && CanLoad(s, e) && Claim(DoLoad(s, e).executors[e]).Some?
    ensures Named(DoLoad(s, e), Claim(DoLoad(s, e).executors[e]).value)
  {
    LoadRemembers(s, e);
    assert Named(s, FactOf(s, e).temp.value);
    LoadKept(s, e);
    NamedStays(s, DoLoad(s, e), FactOf(s, e).temp.value);
  }

  lemma OpenNamed(s: State, e: int, name: string, inode: int)
    requires Inv(s) && WellNamed(s) && CanOpen(s, e, name, inode) && Claim(DoOpen(s, e, name, inode).executors[e]).Some?
    ensures Named(DoOpen(s, e, name, inode), Claim(DoOpen(s, e, name, inode).executors[e]).value)
  {
    LocalOf(s, e);
    OpenRemembers(s, e, name, inode);
    OpenKept(s, e, name, inode);
    if Claim(DoOpen(s, e, name, inode).executors[e]) == Claim(s.executors[e]) {
      NamedStays(s, DoOpen(s, e, name, inode), Claim(s.executors[e]).value);
    }
  }

  lemma MovedNamed(s: State, r: State, step: Step, e: int)
    requires WellNamed(s) && Permanent(s, r) && NamesFollow(s, r) && e in s.executors && e in r.executors
    requires Moves(step, s.executors[e], r.executors[e]) && !step.Load? && !step.Open?
    requires s.executors[e].phase.Loaded? ==> s.executors[e].temp.None?
    requires Claim(r.executors[e]).Some?
    ensures Named(r, Claim(r.executors[e]).value)
  {
    MoveRemembers(step, s.executors[e], r.executors[e]);
    NamedStays(s, r, Claim(s.executors[e]).value);
  }

  lemma NewcomerClaimsNothing(s: State, r: State, step: Step, e: int)
    requires !HasMover(step) ==> OutsideFrame(s, r, step)
    requires HasMover(step) && r != s ==> Alive(s, step.e) && OnlyTouches(s, r, step.e)
    requires e !in s.executors && e in r.executors && ExecutorOk(r, e)
    ensures Claim(r.executors[e]).None?
  {
  }

  lemma OwnClaimNamed(s: State, r: State, step: Step, e: int)
    requires Inv(s) && WellNamed(s) && HasMover(step) && step.e == e && e in s.executors && Kept(s, r, step)
    requires r == After(s, step) && e in r.executors && Claim(r.executors[e]).Some?
    ensures Named(r, Claim(r.executors[e]).value)
  {
    if step.Load? && CanLoad(s, e) {
      LoadNamed(s, e);
    } else if step.Open? && CanOpen(s, e, step.name, step.inode) {
      OpenNamed(s, e, step.name, step.inode);
    } else if r != s {
      assert ExecutorOk(s, e);
      MovedNamed(s, r, step, e);
    }
  }

  lemma ClaimNamed(s: State, step: Step, e: int)
    requires Inv(s) && WellNamed(s) && e in After(s, step).executors && Claim(After(s, step).executors[e]).Some?
    ensures Named(After(s, step), Claim(After(s, step).executors[e]).value)
  {
    var r := After(s, step);
    StepKeeps(s, step);
    if e !in s.executors {
      NewcomerClaimsNothing(s, r, step, e);
    } else if HasMover(step) && step.e == e {
      OwnClaimNamed(s, r, step, e);
    } else {
      OthersStandStill(s, r, step, e);
      NamedStays(s, r, Claim(s.executors[e]).value);
    }
  }

  lemma FactKnown(s: State, r: State, step: Step, t: int)
    requires !ChangesRecords(step) ==> SameRecords(s, r)
    requires !HasMover(step) ==> OutsideFrame(s, r, step)
    requires HasMover(step) && r != s ==> Alive(s, step.e) && OnlyTouches(s, r, step.e) && FactFollows(s, r, step.e)
    requires t in r.facts && r.facts[t].temp.Some?
    ensures t in s.facts
    ensures r.facts[t] == s.facts[t]
            || (HasMover(step) && Alive(s, step.e) && Transferring(s.executors[step.e].phase)
                && s.executors[step.e].task == t && r.facts[t].temp == s.executors[step.e].temp)
  {
  }

  lemma FactNamed(s: State, r: State, step: Step, t: int)
    requires WellNamed(s) && Permanent(s, r) && NamesFollow(s, r) && t in s.facts && t in r.facts
             && r.facts[t].temp.Some?
    requires r.facts[t] == s.facts[t]
             || (HasMover(step) && Alive(s, step.e) && Transferring(s.executors[step.e].phase)
                 && r.facts[t].temp == s.executors[step.e].temp)
    ensures Named(r, r.facts[t].temp.value)
  {
    if r.facts[t] != s.facts[t] {
      assert Claim(s.executors[step.e]) == r.facts[t].temp;
    }
    NamedStays(s, r, r.facts[t].temp.value);
  }

  lemma ClaimsStayNamed(s: State, step: Step, r: State)
    requires Inv(s) && WellNamed(s) && r == After(s, step)
    ensures forall e :: e in r.executors && Claim(r.executors[e]).Some? ==> Named(r, Claim(r.executors[e]).value)
  {
    forall e | e in r.executors && Claim(r.executors[e]).Some?
      ensures Named(r, Claim(r.executors[e]).value)
    {
      ClaimNamed(s, step, e);
    }
  }

  lemma RecordNamed(s: State, r: State, step: Step, t: int)
    requires !ChangesRecords(step) ==> SameRecords(s, r)
    requires !HasMover(step) ==> OutsideFrame(s, r, step)
    requires HasMover(step) && r != s ==> Alive(s, step.e) && OnlyTouches(s, r, step.e) && FactFollows(s, r, step.e)
    requires WellNamed(s) && Permanent(s, r) && NamesFollow(s, r) && t in r.facts && r.facts[t].temp.Some?
    ensures Named(r, r.facts[t].temp.value)
  {
    FactKnown(s, r, step, t);
    FactNamed(s, r, step, t);
  }

  lemma RecordsStayNamed(s: State, step: Step, r: State)
    requires WellNamed(s) && Kept(s, r, step)
    ensures forall t :: t in r.facts && r.facts[t].temp.Some? ==> Named(r, r.facts[t].temp.value)
  {
    forall t | t in r.facts && r.facts[t].temp.Some?
      ensures Named(r, r.facts[t].temp.value)
    {
      RecordNamed(s, r, step, t);
    }
  }

  lemma {:induction false} RunWellNamed(s: State, steps: seq<Step>)
    requires Inv(s) && WellNamed(s)
    ensures WellNamed(Run(s, steps))
    decreases |steps|
  {
    if steps != [] {
      var r := After(s, steps[0]);
      StepKeeps(s, steps[0]);
      ClaimsStayNamed(s, steps[0], r);
      RecordsStayNamed(s, steps[0], r);
      RunWellNamed(r, steps[1..]);
    }
  }

  lemma ReachableWellNamed(s: State)
    requires Reachable(s)
    ensures WellNamed(s)
  {
    var s0, steps :| Initial(s0) && s == Run(s0, steps);
    InitialInv(s0);
    RunWellNamed(s0, steps);
  }

  // ---------------------------------------------------------------- a file longer than its offset

  /** The inode is longer than every offset recorded or read for it, and no run with a current lease has it open. */
  ghost predicate Stranded(s: State, t: int, i: int) {
    && t in s.facts && i in s.files.data && i in s.maker && s.maker[i] == t
    && (s.facts[t].temp.Some? && s.facts[t].temp.value.inode == i ==> s.facts[t].resumeOffset < |s.files.data[i]|)
    && forall d :: Current(s, d) ==> StandsClear(s, d, i)
  }

  ghost predicate StandsClear(s: State, d: int, i: int)
    requires d in s.executors && i in s.files.data
  {
    var x := s.executors[d];
    && (Transferring(x.phase) && x.temp.Some? ==> x.temp.value.inode != i)
    && (x.phase.Loaded? && x.phase.seen.temp.Some? && x.phase.seen.temp.value.inode == i ==>
          x.phase.seen.resumeOffset < |s.files.data[i]|)
  }

  lemma StrandedBySurplus(s: State, t: int)
    requires Inv(s) && t in s.facts && s.facts[t].temp.Some? && s.fence.None?
    requires var i := s.facts[t].temp.value.inode; i in s.files.data && s.facts[t].resumeOffset < |s.files.data[i]|
    ensures Stranded(s, t, s.facts[t].temp.value.inode)
  {
    var i := s.facts[t].temp.value.inode;
    assert TaskOk(s, t) && ResumeOk(s, t);
    forall d | Current(s, d)
      ensures StandsClear(s, d, i)
    {
      LocalOf(s, d);
      SurplusStandsClear(s, d, t);
    }
  }

  lemma SurplusStandsClear(s: State, d: int, t: int)
    requires Local(s, d) && Current(s, d) && t in s.facts && s.facts[t].temp.Some? && s.fence.None?
    requires var i := s.facts[t].temp.value.inode;
             && i in s.files.data && s.facts[t].resumeOffset < |s.files.data[i]|
             && i in s.maker && s.maker[i] == t
    ensures StandsClear(s, d, s.facts[t].temp.value.inode)
  {
  }

  lemma ClearLoad(s: State, d: int, t: int, i: int)
    requires Stranded(s, t, i) && CanLoad(s, d) && ResumeOk(s, s.executors[d].task)
    ensures StandsClear(DoLoad(s, d), d, i)
  {
  }

  lemma ClearOpen(s: State, d: int, name: string, inode: int, i: int)
    requires i in s.files.data && CanOpen(s, d, name, inode) && StandsClear(s, d, i)
    ensures StandsClear(DoOpen(s, d, name, inode), d, i)
  {
  }

  lemma ClearMove(s: State, r: State, step: Step, d: int, i: int)
    requires d in s.executors && d in r.executors && i in s.files.data && i in r.files.data && StandsClear(s, d, i)
    requires Moves(step, s.executors[d], r.executors[d]) && !step.Load? && !step.Open?
    ensures StandsClear(r, d, i)
  {
  }

  lemma ClearOthers(s: State, r: State, d: int, i: int)
    requires d in s.executors && d in r.executors && r.executors[d] == s.executors[d]
    requires i in s.files.data && i in r.files.data && r.files.data[i] == s.files.data[i] && StandsClear(s, d, i)
    ensures StandsClear(r, d, i)
  {
  }

  lemma OwnClearStays(s: State, r: State, step: Step, d: int, t: int, i: int)
    requires Stranded(s, t, i) && d in s.executors && StandsClear(s, d, i) && ResumeOk(s, t)
    requires HasMover(step) && step.e == d && r == After(s, step) && r != s && s.executors[d].task in s.facts
    requires ResumeOk(s, s.executors[d].task)
    requires d in r.executors && i in r.files.data && Moves(step, s.executors[d], r.executors[d])
    ensures StandsClear(r, d, i)
  {
    if step.Load? && CanLoad(s, d) {
      ClearLoad(s, d, t, i);
    } else if step.Open? && CanOpen(s, d, step.name, step.inode) {
      ClearOpen(s, d, step.name, step.inode, i);
    } else {
      ClearMove(s, r, step, d, i);
    }
  }

  lemma NewcomerIsClear(s: State, r: State, step: Step, d: int, i: int)
    requires !HasMover(step) ==> OutsideFrame(s, r, step)
    requires HasMover(step) && r != s ==> Alive(s, step.e) && OnlyTouches(s, r, step.e)
    requires d !in s.executors && d in r.executors && i in r.files.data
    ensures StandsClear(r, d, i)
  {
  }

  /** A run that stands clear of the file goes on doing so. */
  lemma ClearStays(s: State, step: Step, d: int, t: int, i: int)
    requires Inv(s) && Stranded(s, t, i) && Current(After(s, step), d)
    requires i in After(s, step).files.data && After(s, step).files.data[i] == s.files.data[i]
    ensures StandsClear(After(s, step), d, i)
  {
    var r := After(s, step);
    StepKeeps(s, step);
    if d !in s.executors {
      NewcomerIsClear(s, r, step, d, i);
    } else {
      WasCurrent(s, r, d);
      assert StandsClear(s, d, i);
      if !HasMover(step) || step.e != d || r == s {
        OthersOrNone(s, r, step, d);
        ClearOthers(s, r, d, i);
      } else {
        assert TaskOk(s, t) && TaskOk(s, s.executors[d].task);
        OwnClearStays(s, r, step, d, t, i);
      }
    }
  }

  lemma OthersOrNone(s: State, r: State, step: Step, d: int)
    requires Kept(s, r, step) && d in s.executors && (HasMover(step) ==> step.e != d || r == s)
    ensures d in r.executors && r.executors[d] == s.executors[d]
  {
    if r != s {
      OthersStandStill(s, r, step, d);
    }
  }

  lemma WasCurrent(s: State, r: State, d: int)
    requires Inv(s) && d in s.executors && Permanent(s, r) && Current(r, d)
    ensures Current(s, d)
  {
    assert ExecutorOk(s, d);
  }

  lemma StrandedDataStays(s: State, step: Step, t: int, i: int)
    requires Inv(s) && Stranded(s, t, i)
    ensures i in After(s, step).files.data && After(s, step).files.data[i] == s.files.data[i]
  {
    StepKeeps(s, step);
    if step.WriteSome? && CanWriteSome(s, step.e, step.count) {
      assert ExecutorOk(s, step.e);
      assert StandsClear(s, step.e, i);
    }
  }

  ghost predicate OffsetBehind(fact: DownloadFact, i: int, length: nat) {
    fact.temp.Some? && fact.temp.value.inode == i ==> fact.resumeOffset < length
  }

  /** A superseded run changes no fact but to forget its file. */
  lemma SupersededForgets(s: State, r: State, e: int)
    requires Alive(s, e) && OnlyTouches(s, r, e) && !Current(s, e)
    ensures var t := s.executors[e].task; t in r.facts && (r.facts[t] == s.facts[t] || r.facts[t].temp.None?)
  {
  }

  lemma StrandedFactStays(s: State, r: State, step: Step, t: int, i: int)
    requires Stranded(s, t, i) && PermanentRows(s, r)
    requires !ChangesRecords(step) ==> SameRecords(s, r)
    requires !HasMover(step) ==> OutsideFrame(s, r, step)
    requires HasMover(step) && r != s ==> Alive(s, step.e) && OnlyTouches(s, r, step.e) && FactFollows(s, r, step.e)
    ensures t in r.facts && OffsetBehind(r.facts[t], i, |s.files.data[i]|)
  {
    assert t in r.facts;
    if r.facts[t].temp.Some? && r.facts[t] != s.facts[t] {
      FactKnown(s, r, step, t);
      if Current(s, step.e) {
        assert StandsClear(s, step.e, i);
      } else {
        SupersededForgets(s, r, step.e);
      }
    }
  }

  lemma AllStayClear(s: State, step: Step, r: State, t: int, i: int)
    requires Inv(s) && Stranded(s, t, i) && r == After(s, step)
    requires i in r.files.data && r.files.data[i] == s.files.data[i]
    ensures forall d :: Current(r, d) ==> StandsClear(r, d, i)
  {
    forall d | Current(r, d)
      ensures StandsClear(r, d, i)
    {
      ClearStays(s, step, d, t, i);
    }
  }

  lemma {:induction false} StrandedForever(s: State, steps: seq<Step>, t: int, i: int)
    requires Inv(s) && Stranded(s, t, i)
    ensures i in Run(s, steps).files.data && Run(s, steps).files.data[i] == s.files.data[i]
    decreases |steps|
  {
    if steps != [] {
      var r := After(s, steps[0]);
      StepKeeps(s, steps[0]);
      StrandedDataStays(s, steps[0], t, i);
      StrandedFactStays(s, r, steps[0], t, i);
      AllStayClear(s, steps[0], r, t, i);
      StrandedForever(r, steps[1..], t, i);
    }
  }

  /**
   A file that a crash left longer than its committed offset never gains a byte again, from any run of any process.
   */
  lemma CutShortFileIsNeverExtended(s: State, t: int, steps: seq<Step>)
    requires Reachable(s) && s.fence.None? && t in s.facts && s.facts[t].temp.Some?
    requires var i := s.facts[t].temp.value.inode; i in s.files.data && s.facts[t].resumeOffset < |s.files.data[i]|
    ensures var i := s.facts[t].temp.value.inode;
            i in Run(s, steps).files.data && Run(s, steps).files.data[i] == s.files.data[i]
  {
    ReachableInv(s);
    StrandedBySurplus(s, t);
    StrandedForever(s, steps, t, s.facts[t].temp.value.inode);
  }

  // ---------------------------------------------------------------- a run that appends

  ghost predicate LongerIn(s: State, i: int, n: nat) {
    i in s.files.data && n < |s.files.data[i]|
  }

  /** Some continuation makes the inode longer than n bytes. */
  ghost predicate CanOutgrow(s: State, i: int, n: nat) {
    exists steps :: LongerIn(Run(s, steps), i, n)
  }

  lemma OutgrowLater(s: State, step: Step, i: int, n: nat)
    requires CanOutgrow(After(s, step), i, n)
    ensures CanOutgrow(s, i, n)
  {
    var steps :| LongerIn(Run(After(s, step), steps), i, n);
    RunOne(s, step, steps);
    assert LongerIn(Run(s, [step] + steps), i, n);
  }

  lemma OutgrowAfterRowStep(s: State, t: int, op: RowOp, i: int, n: nat)
    requires CanRowStep(s, t, op) && CanOutgrow(DoRowStep(s, t, op), i, n)
    ensures CanOutgrow(s, i, n)
  {
    OutgrowLater(s, RowStep(t, op), i, n);
  }

  lemma OutgrowAfterStart(s: State, e: int, t: int, owner: string, generation: nat, i: int, n: nat)
    requires CanStart(s, e, t, owner, generation) && CanOutgrow(DoStart(s, e, t, owner, generation), i, n)
    ensures CanOutgrow(s, i, n)
  {
    OutgrowLater(s, Start(e, t, owner, generation), i, n);
  }

  lemma OutgrowAfterLoad(s: State, e: int, i: int, n: nat)
    requires CanLoad(s, e) && CanOutgrow(DoLoad(s, e), i, n)
    ensures CanOutgrow(s, i, n)
  {
    OutgrowLater(s, Load(e), i, n);
  }

  lemma OutgrowAfterOpen(s: State, e: int, name: string, inode: int, i: int, n: nat)
    requires CanOpen(s, e, name, inode) && CanOutgrow(DoOpen(s, e, name, inode), i, n)
    ensures CanOutgrow(s, i, n)
  {
    OutgrowLater(s, Open(e, name, inode), i, n);
  }

  lemma OutgrowByAppender(s: State, d: int, i: int)
    requires Inv(s) && MayAppend(s, d, i)
    ensures i in s.files.data && CanOutgrow(s, i, |s.files.data[i]|)
  {
    var steps := AppenderCanExtend(s, d, i);
    assert LongerIn(Run(s, steps), i, |s.files.data[i]|);
  }

  /** The recorded file is in order and below the limit, and no write transaction is open. */
  ghost predicate InOrder(s: State, t: int) {
    && s.fence.None? && t in s.tasks && t in s.facts && s.facts[t].temp.Some?
    && ResumeRefusal(s, s.facts[t].temp.value, s.facts[t].resumeOffset).None?
    && |s.files.data[s.facts[t].temp.value.inode]| < s.facts[t].maxBytes
  }

  lemma OpenedMayAppend(s: State, t: int, e: int, name: string, inode: int)
    requires InOrder(s, t) && CanOpen(s, e, name, inode) && s.executors[e].task == t
    requires s.executors[e].phase.seen == s.facts[t]
    requires HoldsLease(RowOf(s, e), s.executors[e].owner, s.executors[e].generation, s.now)
    ensures MayAppend(DoOpen(s, e, name, inode), e, s.facts[t].temp.value.inode)
    ensures DoOpen(s, e, name, inode).files == s.files
  {
  }

  lemma LoadedOutgrows(s: State, t: int, e: int)
    requires Inv(s) && InOrder(s, t) && Alive(s, e) && s.executors[e].phase.Loaded? && s.executors[e].task == t
    requires s.executors[e].phase.seen == s.facts[t]
    requires HoldsLease(RowOf(s, e), s.executors[e].owner, s.executors[e].generation, s.now)
    ensures var i := s.facts[t].temp.value.inode; CanOutgrow(s, i, |s.files.data[i]|)
  {
    var i := s.facts[t].temp.value.inode;
    var name := UnusedName(s.files.temp.Keys);
    var inode := UnusedInode(s.files.data.Keys);
    assert name !in s.files.temp && inode !in s.files.data;
    OpenedMayAppend(s, t, e, name, inode);
    OpenKept(s, e, name, inode);
    OutgrowByAppender(DoOpen(s, e, name, inode), e, i);
    OutgrowAfterOpen(s, e, name, inode, i, |s.files.data[i]|);
  }

  lemma StartedOutgrows(s: State, t: int, e: int)
    requires Inv(s) && InOrder(s, t) && CanLoad(s, e) && s.executors[e].task == t
    requires HoldsLease(RowOf(s, e), s.executors[e].owner, s.executors[e].generation, s.now)
    ensures var i := s.facts[t].temp.value.inode; CanOutgrow(s, i, |s.files.data[i]|)
  {
    var i := s.facts[t].temp.value.inode;
    LoadKept(s, e);
    LoadedOutgrows(DoLoad(s, e), t, e);
    OutgrowAfterLoad(s, e, i, |s.files.data[i]|);
  }

  /** A lease of a generation that no run was started with. */
  ghost predicate FreshlyLeased(s: State, t: int, owner: string) {
    && InOrder(s, t) && HoldsLease(s.tasks[t], owner, s.tasks[t].leaseGeneration, s.now)
    && forall d :: d in s.executors && s.executors[d].task == t ==>
       s.executors[d].generation != s.tasks[t].leaseGeneration
  }

  lemma LeasedOutgrows(s: State, t: int, owner: string)
    requires Inv(s) && FreshlyLeased(s, t, owner)
    ensures var i := s.facts[t].temp.value.inode; CanOutgrow(s, i, |s.files.data[i]|)
  {
    var i := s.facts[t].temp.value.inode;
    var e := UnusedInode(s.executors.Keys);
    var generation := s.tasks[t].leaseGeneration;
    assert CanStart(s, e, t, owner, generation);
    StartKept(s, e, t, owner, generation);
    StartedOutgrows(DoStart(s, e, t, owner, generation), t, e);
    OutgrowAfterStart(s, e, t, owner, generation, i, |s.files.data[i]|);
  }

  lemma RowStepLeavesOrder(s: State, t: int, op: RowOp)
    requires InOrder(s, t) && CanRowStep(s, t, op)
    ensures InOrder(DoRowStep(s, t, op), t)
    ensures DoRowStep(s, t, op).facts == s.facts && DoRowStep(s, t, op).files == s.files
  {
  }

  lemma LeaseIsFresh(s: State, t: int)
    requires Inv(s) && InOrder(s, t) && s.tasks[t].state == Running && s.tasks[t].leaseExpiresAt.None?
    ensures var op := Leased("a", s.tasks[t].version, 5);
            CanRowStep(s, t, op) && FreshlyLeased(DoRowStep(s, t, op), t, "a")
  {
    var op := Leased("a", s.tasks[t].version, 5);
    assert TaskOk(s, t);
    assert CanRowStep(s, t, op);
    RowStepLeavesOrder(s, t, op);
    forall d | d in s.executors && s.executors[d].task == t
      ensures s.executors[d].generation <= s.tasks[t].leaseGeneration
    {
      assert ExecutorOk(s, d);
    }
  }

  lemma RunningOutgrows(s: State, t: int)
    requires Inv(s) && InOrder(s, t) && s.tasks[t].state == Running && s.tasks[t].leaseExpiresAt.None?
    ensures var i := s.facts[t].temp.value.inode; CanOutgrow(s, i, |s.files.data[i]|)
  {
    var op := Leased("a", s.tasks[t].version, 5);
    var i := s.facts[t].temp.value.inode;
    LeaseIsFresh(s, t);
    RowStepKept(s, t, op);
    RowStepLeavesOrder(s, t, op);
    LeasedOutgrows(DoRowStep(s, t, op), t, "a");
    OutgrowAfterRowStep(s, t, op, i, |s.files.data[i]|);
  }

  /** A transition that a control operation can make; it ends every lease. */
  lemma MoveLeavesOrder(s: State, t: int, target: TaskState)
    requires InOrder(s, t) && CanTransition(s.tasks[t].state, target) && target != Succeeded
    ensures var op := MoveTo(target, s.tasks[t].version);
            && CanRowStep(s, t, op)
            && var r := DoRowStep(s, t, op);
               && InOrder(r, t) && r.tasks[t].state == target && r.facts == s.facts && r.files == s.files
               && r.tasks[t].leaseExpiresAt == (if ClearsLease(target) then None else s.tasks[t].leaseExpiresAt)
  {
    RowStepLeavesOrder(s, t, MoveTo(target, s.tasks[t].version));
  }

  lemma QueuedOutgrows(s: State, t: int)
    requires Inv(s) && InOrder(s, t) && s.tasks[t].state == Queued && s.tasks[t].leaseExpiresAt.None?
    ensures var i := s.facts[t].temp.value.inode; CanOutgrow(s, i, |s.files.data[i]|)
  {
    var op := MoveTo(Running, s.tasks[t].version);
    var i := s.facts[t].temp.value.inode;
    MoveLeavesOrder(s, t, Running);
    RowStepKept(s, t, op);
    RunningOutgrows(DoRowStep(s, t, op), t);
    OutgrowAfterRowStep(s, t, op, i, |s.files.data[i]|);
  }

  lemma RequeuedOutgrows(s: State, t: int)
    requires Inv(s) && InOrder(s, t) && CanTransition(s.tasks[t].state, Queued)
    ensures var i := s.facts[t].temp.value.inode; CanOutgrow(s, i, |s.files.data[i]|)
  {
    var op := MoveTo(Queued, s.tasks[t].version);
    var i := s.facts[t].temp.value.inode;
    MoveLeavesOrder(s, t, Queued);
    RowStepKept(s, t, op);
    QueuedOutgrows(DoRowStep(s, t, op), t);
    OutgrowAfterRowStep(s, t, op, i, |s.files.data[i]|);
  }

  /** Any task that is not terminal can be run again, and the new run appends to its recorded file. */
  lemma UnfinishedOutgrows(s: State, t: int)
    requires Inv(s) && InOrder(s, t) && !Terminal(s.tasks[t].state)
    ensures var i := s.facts[t].temp.value.inode; CanOutgrow(s, i, |s.files.data[i]|)
  {
    var i := s.facts[t].temp.value.inode;
    if CanTransition(s.tasks[t].state, Queued) {
      RequeuedOutgrows(s, t);
    } else {
      var target := if s.tasks[t].state == Cancelling then Failed else Paused;
      MoveLeavesOrder(s, t, target);
      RowStepKept(s, t, MoveTo(target, s.tasks[t].version));
      RequeuedOutgrows(DoRowStep(s, t, MoveTo(target, s.tasks[t].version)), t);
      OutgrowAfterRowStep(s, t, MoveTo(target, s.tasks[t].version), i, |s.files.data[i]|);
    }
  }

  // ---------------------------------------------------------------- exactly when

  lemma HaltedOutgrowsNot(s: State, i: int, why: Halt)
    requires Inv(s) && Halted(s, i, why) && forall d :: !MayAppend(s, d, i)
    ensures !CanOutgrow(s, i, |s.files.data[i]|)
  {
    forall steps
      ensures !LongerIn(Run(s, steps), i, |s.files.data[i]|)
    {
      NoAppenderNoChange(s, steps, i, why);
    }
  }

  lemma StrandedOutgrowsNot(s: State, t: int, i: int)
    requires Inv(s) && Stranded(s, t, i)
    ensures !CanOutgrow(s, i, |s.files.data[i]|)
  {
    forall steps
      ensures !LongerIn(Run(s, steps), i, |s.files.data[i]|)
    {
      StrandedForever(s, steps, t, i);
    }
  }

  lemma DamagedOutgrowsNot(s: State, t: int)
    requires Inv(s) && WellNamed(s) && s.fence.None? && t in s.facts && s.facts[t].temp.Some?
    requires Damaged(s, s.facts[t].temp.value, s.facts[t].resumeOffset)
    requires forall d :: !MayAppend(s, d, s.facts[t].temp.value.inode)
    ensures var i := s.facts[t].temp.value.inode; i in s.files.data && !CanOutgrow(s, i, |s.files.data[i]|)
  {
    var i := s.facts[t].temp.value.inode;
    if s.facts[t].resumeOffset < |s.files.data[i]| {
      StrandedBySurplus(s, t);
      StrandedOutgrowsNot(s, t, i);
    } else if Visible(s, i) {
      HaltedOutgrowsNot(s, i, IsVisible);
    } else {
      assert Named(s, s.facts[t].temp.value);
      HaltedOutgrowsNot(s, i, IsUnnamed);
    }
  }

  /**
   When can an interrupted download be continued? While no write transaction is open, a recorded temporary file can gain
   a byte, in whatever way and from whatever run, exactly when some run may already append to it, or its task is not in
   a terminal state, the file passes the checks for resuming, and it is below the limit.
   */
  lemma RecordedFileCanGrowIff(s: State, t: int)
    requires Reachable(s) && s.fence.None? && t in s.facts && s.facts[t].temp.Some?
    ensures t in s.tasks && s.facts[t].temp.value.inode in s.files.data
    ensures var i := s.facts[t].temp.value.inode;
            CanOutgrow(s, i, |s.files.data[i]|)
            <==> || (exists d :: MayAppend(s, d, i))
                 || (&& !Terminal(s.tasks[t].state)
                     && ResumeRefusal(s, s.facts[t].temp.value, s.facts[t].resumeOffset).None?
                     && |s.files.data[i]| < s.facts[t].maxBytes)
  {
    ReachableInv(s);
    ReachableTidy(s);
    ReachableWellNamed(s);
    assert TaskOk(s, t) && ResumeOk(s, t);
    var i := s.facts[t].temp.value.inode;
    if d :| MayAppend(s, d, i) {
      OutgrowByAppender(s, d, i);
    } else if Terminal(s.tasks[t].state) {
      HaltedOutgrowsNot(s, i, IsTerminal);
    } else if ResumeRefusal(s, s.facts[t].temp.value, s.facts[t].resumeOffset).Some? {
      RefusedIsDamaged(s, s.facts[t].temp.value, s.facts[t].resumeOffset);
      DamagedOutgrowsNot(s, t);
    } else if s.facts[t].maxBytes <= |s.files.data[i]| {
      HaltedOutgrowsNot(s, i, IsFull);
    } else {
      UnfinishedOutgrows(s, t);
    }
  }
}
