/** The confirmation of a local import plan: tasks are created once per intent and verified by a fresh session. */
module LocalConfirmation {
  import opened Basics
  import opened Tasks
  import opened Intents
  import opened LocalImport

  datatype Plan = Plan(itemId: nat, sourceId: Option<int>, files: seq<LocalFileFact>)

  /** The prefix `local-import`, and those of other intents. */
  datatype Prefix = LocalImportPrefix | OtherPrefix(text: string)

  /** An intent key: its prefix and the hashed material, a free constructor as SHA-256 is. */
  datatype IntentKey = IntentKey(prefix: Prefix, material: string)

  datatype ImportTask = ImportTask(
    intent: IntentKey, state: TaskState, stage: Stage, local: bool, itemId: nat, sourceId: Option<int>, target: string,
    snapshot: LocalFileFact, expectedBytes: Option<nat>, mimeType: string, sha256: string)

  /** The task table with its unique index on the intent key. */
  datatype Table = Table(tasks: map<int, ImportTask>, byIntent: map<IntentKey, int>, next: int)

  ghost predicate Indexed(t: Table) {
    && (forall k :: k in t.byIntent ==> t.byIntent[k] in t.tasks && t.tasks[t.byIntent[k]].intent == k)
    && (forall id :: id in t.tasks ==>
        t.tasks[id].intent in t.byIntent && t.byIntent[t.tasks[id].intent] == id && id < t.next)
  }

  ghost predicate ValidPlan(plan: Plan) {
    && (forall i, j :: 0 <= i < j < |plan.files| ==> plan.files[i].path != plan.files[j].path)
    && (forall i :: 0 <= i < |plan.files| ==> ':' !in plan.files[i].sha256)
  }

  function KeyOf(plan: Plan, fact: LocalFileFact): IntentKey {
    IntentKey(LocalImportPrefix, IntentMaterial(plan.itemId, fact.path, fact.sha256))
  }

  function QueuedImport(plan: Plan, fact: LocalFileFact): ImportTask {
    ImportTask(KeyOf(plan, fact), Queued, LocalQueued, true, plan.itemId, plan.sourceId, fact.path, fact,
               Some(fact.sizeBytes), fact.mimeType, fact.sha256)
  }

  /** The task is a local one and has the facts of this file of the plan. */
  predicate Carries(task: ImportTask, plan: Plan, fact: LocalFileFact) {
    && task.local && task.itemId == plan.itemId && task.sourceId == plan.sourceId && task.target == fact.path
    && task.snapshot == fact && task.expectedBytes == Some(fact.sizeBytes) && task.mimeType == fact.mimeType
    && task.sha256 == fact.sha256
  }

  predicate Accepted(task: ImportTask) {
    || (task.state == Queued && task.stage == LocalQueued)
    || task.state == Running || task.state == Paused || task.state == Blocked
    || (task.state == Succeeded && task.stage == DurableVerified)
  }

  function WithQueued(table: Table, plan: Plan, fact: LocalFileFact): Table {
    Table(table.tasks[table.next := QueuedImport(plan, fact)], table.byIntent[KeyOf(plan, fact) := table.next],
          table.next + 1)
  }

  /** The table after the first n files, with their ids, or the first refusal. */
  function Collected(t: Table, plan: Plan, scan: map<string, LocalFileFact>, n: nat)
    : Result<(Table, seq<int>), LocalError>
    requires n <= |plan.files|
  {
    if n == 0 then Ok((t, []))
    else
      var before := Collected(t, plan, scan, n - 1);
      if before.Err? then before
      else
        var fact := plan.files[n - 1];
        var table, ids := before.value.0, before.value.1;
        if fact.path !in scan then Err(ConfirmationFailed)
        else if scan[fact.path] != fact then Err(SnapshotDiffers)
        else if KeyOf(plan, fact) !in table.byIntent then
          Ok((WithQueued(table, plan, fact), ids + [table.next]))
        else
          var id := table.byIntent[KeyOf(plan, fact)];
          if id in table.tasks && Carries(table.tasks[id], plan, fact) then Ok((table, ids + [id]))
              else Err(IntentConflict)
  }

  ghost predicate AllAccepted(tasks: map<int, ImportTask>, ids: seq<int>) {
    forall i :: 0 <= i < |ids| ==> ids[i] in tasks && Accepted(tasks[ids[i]])
  }

  /** The queued tasks of an import that could not be verified are blocked. */
  function WithBlocked(tasks: map<int, ImportTask>, ids: seq<int>): map<int, ImportTask> {
    map id | id in tasks :: if id in ids && tasks[id].state == Queued then tasks[id].(state := Blocked) else tasks[id]
  }

  ghost function Confirmed(t: Table, plan: Plan, scan: map<string, LocalFileFact>, ending: Ending)
    : (Table, Result<seq<int>, LocalError>)
  {
    var collected := Collected(t, plan, scan, |plan.files|);
    if collected.Err? then (t, Err(collected.error))
    else if !ending.Acked? then (if ending.RaisedAfter? then collected.value.0 else t, Err(ConfirmationFailed))
    else
      var table, ids := collected.value.0, collected.value.1;
      if AllAccepted(table.tasks, ids) then (table, Ok(ids))
      else (table.(tasks := WithBlocked(table.tasks, ids)), Err(ConfirmationUnverified))
  }

  class ImportConfirmer {
    var table: Table

    constructor (table: Table)
      ensures this.table == table
    {
      this.table := table;
    }

    /** The tasks of the plan are found or added, without a commit. */
    method Collect(plan: Plan, scan: map<string, LocalFileFact>) returns (r: Result<(Table, seq<int>), LocalError>)
      ensures r == Collected(table, plan, scan, |plan.files|)
    {
      var pending := table;
      var ids: seq<int> := [];
      for n := 0 to |plan.files|
        invariant Collected(table, plan, scan, n) == Ok((pending, ids))
      {
        RefusalStays(table, plan, scan, n + 1, |plan.files|);
        var fact := plan.files[n];
        if fact.path !in scan {
          return Err(ConfirmationFailed);
        }
        if scan[fact.path] != fact {
          return Err(SnapshotDiffers);
        }
        var key := KeyOf(plan, fact);
        if key !in pending.byIntent {
          var id := pending.next;
          pending := WithQueued(pending, plan, fact);
          ids := ids + [id];
        } else {
          var id := pending.byIntent[key];
          if id !in pending.tasks || !Carries(pending.tasks[id], plan, fact) {
            return Err(IntentConflict);
          }
          ids := ids + [id];
        }
      }
      return Ok((pending, ids));
    }

    method Confirm(plan: Plan, scan: map<string, LocalFileFact>,
                   ending: Ending) returns (r: Result<seq<int>, LocalError>)
      modifies this
      ensures (table, r) == Confirmed(old(table), plan, scan, ending)
    {
      var collected := Collect(plan, scan);
      if collected.Err? {
        return Err(collected.error);
      }
      if ending.RaisedBefore? {
        return Err(ConfirmationFailed);
      }
      var ids := collected.value.1;
      table := collected.value.0;
      if ending.RaisedAfter? {
        return Err(ConfirmationFailed);
      }
      var accepted := true;
      for i := 0 to |ids|
        invariant accepted <==> forall j :: 0 <= j < i ==> ids[j] in table.tasks && Accepted(table.tasks[ids[j]])
        invariant table == collected.value.0
      {
        accepted := accepted && ids[i] in table.tasks && Accepted(table.tasks[ids[i]]);
      }
      if accepted {
        return Ok(ids);
      }
      table := table.(tasks := WithBlocked(table.tasks, ids));
      return Err(ConfirmationUnverified);
    }
  }

  lemma {:induction false} RefusalStays(t: Table, plan: Plan, scan: map<string, LocalFileFact>, m: nat, n: nat)
    requires m <= n <= |plan.files|
    ensures Collected(t, plan, scan, m).Err? ==> Collected(t, plan, scan, n) == Collected(t, plan, scan, m)
    decreases n
  {
    if m < n {
      RefusalStays(t, plan, scan, m, n - 1);
    }
  }

  lemma FilesHaveDistinctKeys(plan: Plan, i: nat, j: nat)
    requires ValidPlan(plan) && i < j < |plan.files|
    ensures KeyOf(plan, plan.files[i]) != KeyOf(plan, plan.files[j])
  {
    if KeyOf(plan, plan.files[i]) == KeyOf(plan, plan.files[j]) {
      IntentDeterminesFile(plan.itemId, plan.files[i].path, plan.files[i].sha256, plan.itemId, plan.files[j].path,
                           plan.files[j].sha256);
    }
  }

  /** What existed is in the table as it was. */
  ghost predicate Extends(t: Table, table: Table) {
    && (forall id :: id in t.tasks ==> id in table.tasks && table.tasks[id] == t.tasks[id])
    && (forall k :: k in t.byIntent ==> k in table.byIntent && table.byIntent[k] == t.byIntent[k])
  }

  /** What has been collected for the first n files. */
  ghost predicate CollectedWell(t: Table, table: Table, ids: seq<int>, plan: Plan, n: nat)
    requires n <= |plan.files|
  {
    && Indexed(table) && |ids| == n
    && Extends(t, table)
    && (forall i :: 0 <= i < n ==>
          && KeyOf(plan, plan.files[i]) in table.byIntent && table.byIntent[KeyOf(plan, plan.files[i])] == ids[i]
          && ids[i] in table.tasks && Carries(table.tasks[ids[i]], plan, plan.files[i]))
    && (forall i :: 0 <= i < n && ids[i] !in t.tasks ==> table.tasks[ids[i]] == QueuedImport(plan, plan.files[i]))
    && (forall id :: id in table.tasks && id !in t.tasks ==> id in ids)
  }

  lemma {:induction false} CollectionIsSound(t: Table, plan: Plan, scan: map<string, LocalFileFact>, n: nat)
    requires Indexed(t) && n <= |plan.files| && Collected(t, plan, scan, n).Ok?
    ensures var (table, ids) := Collected(t, plan, scan, n).value; CollectedWell(t, table, ids, plan, n)
  {
    if n > 0 {
      CollectionIsSound(t, plan, scan, n - 1);
      var (table, ids) := Collected(t, plan, scan, n - 1).value;
      var key := KeyOf(plan, plan.files[n - 1]);
      if key in table.byIntent {
        var id := table.byIntent[key];
        if id !in t.tasks {
          NewTasksAreQueuedImports(t, table, ids, plan, n - 1, id);
          SameKeySameImport(plan, table.tasks[id], plan.files[n - 1]);
        }
        ExistingStep(t, table, ids, plan, n);
      } else {
        CreatedStep(t, table, ids, plan, n);
      }
    }
  }

  lemma SameKeySameImport(plan: Plan, task: ImportTask, fact: LocalFileFact)
    requires Carries(task, plan, fact) && exists f :: task == QueuedImport(plan, f)
    ensures task == QueuedImport(plan, fact)
  {
  }

  lemma ExistingStep(t: Table, table: Table, ids: seq<int>, plan: Plan, n: nat)
    requires 0 < n <= |plan.files| && CollectedWell(t, table, ids, plan, n - 1)
    requires var key := KeyOf(plan, plan.files[n - 1]);
             key in table.byIntent && Carries(table.tasks[table.byIntent[key]], plan, plan.files[n - 1])
    requires var id := table.byIntent[KeyOf(plan, plan.files[n - 1])];
             id in t.tasks || table.tasks[id] == QueuedImport(plan, plan.files[n - 1])
    ensures CollectedWell(t, table, ids + [table.byIntent[KeyOf(plan, plan.files[n - 1])]], plan, n)
  {
  }

  lemma CreatedStep(t: Table, table: Table, ids: seq<int>, plan: Plan, n: nat)
    requires 0 < n <= |plan.files| && CollectedWell(t, table, ids, plan, n - 1)
    requires KeyOf(plan, plan.files[n - 1]) !in table.byIntent
    ensures CollectedWell(t, WithQueued(table, plan, plan.files[n - 1]), ids + [table.next], plan, n)
  {
    var fact := plan.files[n - 1];
    var after := WithQueued(table, plan, fact);
    var more := ids + [table.next];
    forall i | 0 <= i < n
      ensures KeyOf(plan, plan.files[i]) in after.byIntent && after.byIntent[KeyOf(plan, plan.files[i])] == more[i]
      ensures more[i] in after.tasks && Carries(after.tasks[more[i]], plan, plan.files[i])
      ensures more[i] !in t.tasks ==> after.tasks[more[i]] == QueuedImport(plan, plan.files[i])
    {
      if i < n - 1 {
        assert ids[i] != table.next;
      }
    }
    assert Indexed(after);
    assert forall id :: id in after.tasks && id !in t.tasks ==> id in more;
  }

  lemma {:induction false} NewTasksAreQueuedImports(t: Table, table: Table, ids: seq<int>, plan: Plan, n: nat, id: int)
    requires n <= |plan.files| && CollectedWell(t, table, ids, plan, n) && id in table.tasks && id !in t.tasks
    ensures exists i :: 0 <= i < n && table.tasks[id] == QueuedImport(plan, plan.files[i])
  {
    var i :| 0 <= i < |ids| && ids[i] == id;
    assert table.tasks[ids[i]] == QueuedImport(plan, plan.files[i]);
  }

  /**
   A confirmed plan has one task per file, in the order of the plan, each with the facts of its file and in an accepted
   state; tasks that existed are untouched, and every new task belongs to a file of the plan.
   */
  lemma ConfirmationIsBijective(t: Table, plan: Plan, scan: map<string, LocalFileFact>, ending: Ending)
    requires Indexed(t) && ValidPlan(plan) && Confirmed(t, plan, scan, ending).1.Ok?
    ensures var (table, r) := Confirmed(t, plan, scan, ending);
            var ids := r.value;
            && Indexed(table) && |ids| == |plan.files|
            && (forall i, j :: 0 <= i < j < |ids| ==> ids[i] != ids[j])
            && (forall i :: 0 <= i < |ids| ==>
                  ids[i] in table.tasks && Carries(table.tasks[ids[i]], plan, plan.files[i])
                      && Accepted(table.tasks[ids[i]]))
            && (forall id :: id in t.tasks ==> id in table.tasks && table.tasks[id] == t.tasks[id])
            && (forall id :: id in table.tasks && id !in t.tasks ==> id in ids)
  {
    CollectionIsSound(t, plan, scan, |plan.files|);
    var (table, ids) := Collected(t, plan, scan, |plan.files|).value;
    forall i, j | 0 <= i < j < |ids|
      ensures ids[i] != ids[j]
    {
      FilesHaveDistinctKeys(plan, i, j);
    }
  }

  /** The i-th file is as planned, and the table has its task under its intent. */
  ghost predicate Found(table: Table, ids: seq<int>, plan: Plan, scan: map<string, LocalFileFact>, i: nat)
    requires i < |ids| == |plan.files|
  {
    var fact := plan.files[i];
    && fact.path in scan && scan[fact.path] == fact
    && KeyOf(plan, fact) in table.byIntent && table.byIntent[KeyOf(plan, fact)] == ids[i]
    && ids[i] in table.tasks && Carries(table.tasks[ids[i]], plan, fact)
  }

  lemma RecollectionStep(table: Table, ids: seq<int>, plan: Plan, scan: map<string, LocalFileFact>, n: nat)
    requires 0 < n <= |plan.files| == |ids| && Collected(table, plan, scan, n - 1) == Ok((table, ids[..n - 1]))
    requires Found(table, ids, plan, scan, n - 1)
    ensures Collected(table, plan, scan, n) == Ok((table, ids[..n]))
  {
    assert ids[..n] == ids[..n - 1] + [ids[n - 1]];
  }

  lemma {:induction false} RecollectionFindsTheSame(table: Table, ids: seq<int>, plan: Plan,
                                                    scan: map<string, LocalFileFact>, n: nat)
    requires n <= |plan.files| == |ids| && forall i :: 0 <= i < |plan.files| ==> Found(table, ids, plan, scan, i)
    ensures Collected(table, plan, scan, n) == Ok((table, ids[..n]))
  {
    if n > 0 {
      RecollectionFindsTheSame(table, ids, plan, scan, n - 1);
      RecollectionStep(table, ids, plan, scan, n);
    }
  }

  lemma CollectedIsFound(t: Table, table: Table, ids: seq<int>, plan: Plan, scan: map<string, LocalFileFact>, i: nat)
    requires i < |plan.files| && CollectedWell(t, table, ids, plan, |plan.files|)
    requires plan.files[i].path in scan && scan[plan.files[i].path] == plan.files[i]
    ensures Found(table, ids, plan, scan, i)
  {
  }

  lemma AllFound(t: Table, plan: Plan, scan: map<string, LocalFileFact>)
    requires Indexed(t) && Collected(t, plan, scan, |plan.files|).Ok?
    ensures var (table, ids) := Collected(t, plan, scan, |plan.files|).value;
            |ids| == |plan.files| && forall i :: 0 <= i < |plan.files| ==> Found(table, ids, plan, scan, i)
  {
    CollectionIsSound(t, plan, scan, |plan.files|);
    var (table, ids) := Collected(t, plan, scan, |plan.files|).value;
    forall i | 0 <= i < |plan.files|
      ensures Found(table, ids, plan, scan, i)
    {
      CollectedFileWasFine(t, plan, scan, |plan.files|, i);
      CollectedIsFound(t, table, ids, plan, scan, i);
    }
  }

  /**
   Later on: tasks and their intents are still there, though states and stages may have moved, and there may be more.
   */
  ghost predicate MovedOn(t: Table, later: Table) {
    && (forall k :: k in t.byIntent ==> k in later.byIntent && later.byIntent[k] == t.byIntent[k])
    && (forall id :: id in t.tasks ==>
          id in later.tasks && later.tasks[id].(state := t.tasks[id].state, stage := t.tasks[id].stage) == t.tasks[id])
  }

  lemma FoundLater(table: Table, later: Table, ids: seq<int>, plan: Plan, scan: map<string, LocalFileFact>, i: nat)
    requires MovedOn(table, later) && i < |plan.files| == |ids| && Found(table, ids, plan, scan, i)
    ensures Found(later, ids, plan, scan, i)
  {
    assert later.tasks[ids[i]].(state := table.tasks[ids[i]].state, stage := table.tasks[ids[i]].stage) ==
           table.tasks[ids[i]];
  }

  /**
   Confirming again at any later time creates no task: it returns the same ids exactly when these tasks are all in an
   accepted state then, whichever they have moved to, and otherwise only blocks those of them that are queued.
   */
  lemma ConfirmationIsIdempotent(t: Table, later: Table, plan: Plan, scan: map<string, LocalFileFact>)
    requires Indexed(t) && Confirmed(t, plan, scan, Acked).1.Ok? && MovedOn(Confirmed(t, plan, scan, Acked).0, later)
    ensures var ids := Confirmed(t, plan, scan, Acked).1.value;
            Confirmed(later, plan, scan, Acked)
            == if AllAccepted(later.tasks, ids) then (later, Ok(ids))
               else (later.(tasks := WithBlocked(later.tasks, ids)), Err(ConfirmationUnverified))
  {
    AllFound(t, plan, scan);
    var (table, ids) := Collected(t, plan, scan, |plan.files|).value;
    forall i | 0 <= i < |plan.files|
      ensures Found(later, ids, plan, scan, i)
    {
      FoundLater(table, later, ids, plan, scan, i);
    }
    RecollectionFindsTheSame(later, ids, plan, scan, |plan.files|);
    assert ids[..|plan.files|] == ids;
  }

  /** A commit that raises after taking effect is repaired by confirming again. */
  lemma ConfirmationAfterLostCommit(t: Table, plan: Plan, scan: map<string, LocalFileFact>)
    requires Indexed(t) && Confirmed(t, plan, scan, Acked).1.Ok?
    ensures var (table, r) := Confirmed(t, plan, scan, RaisedAfter);
            r == Err(ConfirmationFailed) && Confirmed(table, plan, scan, Acked) == Confirmed(t, plan, scan, Acked)
  {
    ConfirmationIsIdempotent(t, Confirmed(t, plan, scan, Acked).0, plan, scan);
  }

  /** The file is as planned, and a task that exists for its intent carries it and is in an accepted state. */
  ghost predicate Confirmable(t: Table, plan: Plan, scan: map<string, LocalFileFact>, fact: LocalFileFact) {
    && fact.path in scan && scan[fact.path] == fact
    && (KeyOf(plan, fact) in t.byIntent ==>
          var id := t.byIntent[KeyOf(plan, fact)];
          id in t.tasks && Carries(t.tasks[id], plan, fact) && Accepted(t.tasks[id]))
  }

  /** Every intent of the table was there before or belongs to one of the first n files. */
  ghost predicate KeysFromPlan(t: Table, table: Table, plan: Plan, n: nat)
    requires n <= |plan.files|
  {
    forall k :: k in table.byIntent ==> k in t.byIntent || exists i :: 0 <= i < n && k == KeyOf(plan, plan.files[i])
  }

  lemma IntentWasKnown(t: Table, table: Table, plan: Plan, n: nat)
    requires ValidPlan(plan) && 0 < n <= |plan.files| && KeysFromPlan(t, table, plan, n - 1)
    requires KeyOf(plan, plan.files[n - 1]) in table.byIntent
    ensures KeyOf(plan, plan.files[n - 1]) in t.byIntent
  {
    var key := KeyOf(plan, plan.files[n - 1]);
    if key !in t.byIntent {
      var i :| 0 <= i < n - 1 && key == KeyOf(plan, plan.files[i]);
      FilesHaveDistinctKeys(plan, i, n - 1);
    }
  }

  lemma ExistingIntentCarries(t: Table, table: Table, plan: Plan, scan: map<string, LocalFileFact>, fact: LocalFileFact)
    requires Extends(t, table) && Confirmable(t, plan, scan, fact) && KeyOf(plan, fact) in t.byIntent
    ensures KeyOf(plan, fact) in table.byIntent
    ensures var id := table.byIntent[KeyOf(plan, fact)]; id in table.tasks && Carries(table.tasks[id], plan, fact)
  {
  }

  lemma {:induction false} ConfirmableFilesAreCollected(t: Table, plan: Plan, scan: map<string, LocalFileFact>, n: nat)
    requires Indexed(t) && ValidPlan(plan) && n <= |plan.files|
    requires forall i :: 0 <= i < |plan.files| ==> Confirmable(t, plan, scan, plan.files[i])
    ensures Collected(t, plan, scan, n).Ok? && KeysFromPlan(t, Collected(t, plan, scan, n).value.0, plan, n)
  {
    if n > 0 {
      ConfirmableFilesAreCollected(t, plan, scan, n - 1);
      CollectionIsSound(t, plan, scan, n - 1);
      NextIsCollected(t, plan, scan, n);
    }
  }

  lemma NextIsCollected(t: Table, plan: Plan, scan: map<string, LocalFileFact>, n: nat)
    requires ValidPlan(plan) && 0 < n <= |plan.files| && Collected(t, plan, scan, n - 1).Ok?
    requires var (table, ids) := Collected(t, plan, scan, n - 1).value;
             CollectedWell(t, table, ids, plan, n - 1) && KeysFromPlan(t, table, plan, n - 1)
    requires Confirmable(t, plan, scan, plan.files[n - 1])
    ensures Collected(t, plan, scan, n).Ok? && KeysFromPlan(t, Collected(t, plan, scan, n).value.0, plan, n)
  {
    var (table, ids) := Collected(t, plan, scan, n - 1).value;
    if KeyOf(plan, plan.files[n - 1]) in table.byIntent {
      IntentWasKnown(t, table, plan, n);
      ExistingIntentCarries(t, table, plan, scan, plan.files[n - 1]);
      assert Collected(t, plan, scan, n).value.0 == table;
    } else {
      assert Collected(t, plan, scan, n).value.0 == WithQueued(table, plan, plan.files[n - 1]);
    }
  }

  lemma {:induction false} CollectedFileWasFine(t: Table, plan: Plan, scan: map<string, LocalFileFact>, n: nat, i: nat)
    requires Indexed(t) && i < n <= |plan.files| && Collected(t, plan, scan, n).Ok?
    ensures plan.files[i].path in scan && scan[plan.files[i].path] == plan.files[i]
  {
    RefusalStays(t, plan, scan, i + 1, n);
  }

  lemma ConfirmableTaskIsAccepted(t: Table, table: Table, ids: seq<int>, plan: Plan, scan: map<string, LocalFileFact>,
                                  i: nat)
    requires Indexed(t) && CollectedWell(t, table, ids, plan, |plan.files|)
    requires i < |ids| && Confirmable(t, plan, scan, plan.files[i])
    ensures ids[i] in table.tasks && Accepted(table.tasks[ids[i]])
  {
    var key := KeyOf(plan, plan.files[i]);
    if key in t.byIntent {
      assert ids[i] == t.byIntent[key];
    } else {
      assert table.tasks[ids[i]].intent == key;
      assert ids[i] !in t.tasks;
    }
  }

  lemma ConfirmableIsConfirmed(t: Table, plan: Plan, scan: map<string, LocalFileFact>)
    requires Indexed(t) && ValidPlan(plan)
    requires forall i :: 0 <= i < |plan.files| ==> Confirmable(t, plan, scan, plan.files[i])
    ensures Confirmed(t, plan, scan, Acked).1.Ok?
  {
    ConfirmableFilesAreCollected(t, plan, scan, |plan.files|);
    CollectionIsSound(t, plan, scan, |plan.files|);
    var (table, ids) := Collected(t, plan, scan, |plan.files|).value;
    forall i | 0 <= i < |ids|
      ensures ids[i] in table.tasks && Accepted(table.tasks[ids[i]])
    {
      ConfirmableTaskIsAccepted(t, table, ids, plan, scan, i);
    }
  }

  lemma ConfirmedWasConfirmable(t: Table, plan: Plan, scan: map<string, LocalFileFact>, i: nat)
    requires Indexed(t) && i < |plan.files| && Confirmed(t, plan, scan, Acked).1.Ok?
    ensures Confirmable(t, plan, scan, plan.files[i])
  {
    CollectionIsSound(t, plan, scan, |plan.files|);
    CollectedFileWasFine(t, plan, scan, |plan.files|, i);
  }

  /** Exactly when a plan can be confirmed. */
  lemma ConfirmedIffConfirmable(t: Table, plan: Plan, scan: map<string, LocalFileFact>)
    requires Indexed(t) && ValidPlan(plan)
    ensures Confirmed(t, plan, scan, Acked).1.Ok?
            <==> forall i :: 0 <= i < |plan.files| ==> Confirmable(t, plan, scan, plan.files[i])
  {
    if forall i :: 0 <= i < |plan.files| ==> Confirmable(t, plan, scan, plan.files[i]) {
      ConfirmableIsConfirmed(t, plan, scan);
    }
    if Confirmed(t, plan, scan, Acked).1.Ok? {
      forall i | 0 <= i < |plan.files|
        ensures Confirmable(t, plan, scan, plan.files[i])
      {
        ConfirmedWasConfirmable(t, plan, scan, i);
      }
    }
  }

  /** A refusal changes nothing, except that after an unverified confirmation queued tasks of the plan are blocked. */
  lemma RefusalChangesNothing(t: Table, plan: Plan, scan: map<string, LocalFileFact>, ending: Ending)
    requires Indexed(t) && Confirmed(t, plan, scan, ending).1.Err? && !ending.RaisedAfter?
    ensures var (table, r) := Confirmed(t, plan, scan, ending);
            if r.error != ConfirmationUnverified then table == t
            else forall id :: id in t.tasks ==>
                   && id in table.tasks
                   && (table.tasks[id] == t.tasks[id]
                       || (t.tasks[id].state == Queued && table.tasks[id] == t.tasks[id].(state := Blocked)))
  {
    if Collected(t, plan, scan, |plan.files|).Ok? {
      CollectionIsSound(t, plan, scan, |plan.files|);
    } else {
      CollectionErrors(t, plan, scan, |plan.files|);
    }
  }

  lemma {:induction false} CollectionErrors(t: Table, plan: Plan, scan: map<string, LocalFileFact>, n: nat)
    requires n <= |plan.files| && Collected(t, plan, scan, n).Err?
    ensures Collected(t, plan, scan, n).error != ConfirmationUnverified
  {
    if n > 0 && Collected(t, plan, scan, n - 1).Err? {
      CollectionErrors(t, plan, scan, n - 1);
    }
  }
}
